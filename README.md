# TripAiWay booking core in Dafny

TripAiWay is a travel-planning web application. A traveller walks through a four-step wizard and
gets an itinerary, books a suggested hotel and pays through a payment gateway. Afterwards they can
ask to cancel the booking and then ask for a refund. An operator console confirms, checks in,
checks out, cancels and refunds bookings. An admin dashboard lists every user with their trips
and bookings.

This project models the sequential logic under that user interface and proves properties of it.

The pieces modelled:

- **The booking life cycle.**
  - The eight booking statuses.
  - The moves the operator's and the customer's buttons offer.
  - The status write: which time stamps it adds, and that nothing else changes.
  - The invariants that every run of offered moves keeps (`bookings.dfy`, `lifecycle.dfy`).
- **The operator console** (`operator_console.dfy`).
  - Grouping every booking by its user, newest first within each user.
  - The set of expanded users.
  - The status-update handler, with its "booking not found" path.
- **The customer's booking page** (`customer_bookings.dfy`).
  - The cancellation and refund requests.
  - The set of booking ids whose refund is being watched, and the re-read that merges a fresh copy into the list.
  - The status label with its refund countdown.
  - When the invoice button is available.
- **Pricing** (`pricing.dfy`).
  - The server's catalogue rates.
  - The weekend, peak-month and extra-guest surcharges.
  - Rounding to whole rupees and the 18% tax.
  - The gateway-priced variant.
  - The booking page's fallback table.
- **The payment server's endpoints** (`payment_api.dfy`).
  - The amount and currency checks of payment-intent creation.
  - The mapping of gateway errors to HTTP statuses for payments and refunds.
  - The invoice request check, its file name and its subtotal.
- **The hotel booking page** (`book_hotel.dfy`).
  - The room catalogue.
  - Form validation, with the required fields in order, the e-mail pattern, the mobile number, the dates and the room capacity.
  - The stay length.
  - The choice between live and fallback pricing.
  - The payment request in paise.
  - The booking record saved after payment.
- **The admin dashboard** (`admin_panel.dfy`).
  - The fixed-credential login.
  - The two folds that group trips and bookings per user with running counters.
  - The user cards it renders.
- **The trip wizard** (`create_trip.dfy`).
  - The step counter and its gates.
  - The check before generation.
  - The prompt built by replacing the first occurrence of each placeholder.

Shared pieces:

- `grouping.dfy` defines what a group-by-key fold collects and in which order keys first appear.
- `js.dfy` holds the JavaScript semantics the code relies on: `parseInt`, `${n}`, `String.prototype.replace` with a string pattern, `toLowerCase` and the object spread.
- `wrappers.dfy` holds `Option` and `Result`.

Modelling choices:

- **Money and rates are exact rationals (`real`).** `Math.round(x)` is `floor(x + 1/2)`.
- **Form dates become instants through a parameter.** The parameter `dateOf` stands for `new Date(…)`.
- **The pricing routes take the check-in weekday and month as inputs.**
- **The database is a value.**
  - A collection is the ordered list of documents a query returns.
  - `updateDoc` fails when no document has the id.
- **The gateway is a value.** Each call takes the outcome the gateway would give: a value, or an error type with its message.
- **The clock is a value.** Time stamps are instants in milliseconds. In the status write, each `new Date()` is a parameter of its own: `now` for `updatedAt`, `stampAt` for the target status's stamp, `processedAt` for `refundProcessedAt`. Elsewhere one parameter can stand for two readings; these cases are listed under "Left out".

The code behaves as follows:

- The status write checks no transition. Any status can be written. `Transition` describes the moves the buttons offer, not a check made at write time.
- Approving a refund calls no payment gateway. The status becomes `refunded` and both refund stamps are written.
- A watched booking whose document is missing stays watched. Its re-read changes nothing, so polling goes on. It is not dropped from the watch set.

## Model

| member | source | states |
|---|---|---|
| Bookings.ParseStatusName | src/components/BookingManagement.jsx:161-190 | every status reads back from its stored name, so the eight stored strings are distinct |
| Bookings.StatusPatch | src/admin/components/HotelBookingManagement.jsx:94-113 | the update record carries the requested status and `updatedAt` = `now`; the stamps it adds are exactly those of the target status (check-in, check-out, `cancelledAt`, or both refund stamps); the target's stamp takes its own later reading `stampAt`, and `refundProcessedAt` takes `processedAt` |
| Bookings.ApplyPatch | src/admin/components/HotelBookingManagement.jsx:115 | writing a patch replaces status, `updatedAt` and the stamps it carries; the creation-time details and every other stamp keep their values |
| Bookings.Overlay | src/components/BookingManagement.jsx:53-59 | `{...held, ...latest}`: fields present in the fresh read win; an optional field absent from it keeps the held value |
| Bookings.OverlayOfLaterVersion | src/components/BookingManagement.jsx:53-59 | merging a read of a later version (one that lost no field) yields exactly that read |
| Bookings.PatchKeepsFields | src/admin/components/HotelBookingManagement.jsx:94-115 | a status write never removes a field the document had |
| Bookings.UpdateWhere | src/components/BookingManagement.jsx:53-59 | `list.map`: entries with the id are rewritten, all others kept, length kept |
| Bookings.UpdateDoc | src/admin/components/HotelBookingManagement.jsx:80-115 | the write succeeds iff a document has the id; then exactly that document is patched and every other one is unchanged |
| Bookings.NewestFirstOrdersAll | src/admin/components/HotelBookingManagement.jsx:46-48 | in a list sorted by descending `timestamp.seconds` every booking is at least as recent as every later one |
| Bookings.InsertNewestFirst | src/components/BookingManagement.jsx:25-34 | inserting into a newest-first list keeps it newest first and adds exactly that booking |
| Bookings.SortNewestFirst | src/admin/components/HotelBookingManagement.jsx:46-48 | the sort yields the same bookings (as a multiset), newest first |
| Bookings.InsertKeepsTies | src/components/BookingManagement.jsx:34 | inserting a booking puts it ahead of the others made in the same second and keeps their order |
| Bookings.SortNewestFirstStable | src/components/BookingManagement.jsx:34 | the sort is stable: bookings made in the same second keep the order of the snapshot |
| Lifecycle.OperatorButtonsInTable | src/admin/components/HotelBookingManagement.jsx:246-322 | every button rendered for a status writes a move of the operator's table |
| Lifecycle.OperatorMovesExactly | src/admin/components/HotelBookingManagement.jsx:246-322 | the operator can move from→to iff (from,to) is one of the eight moves: pending→confirmed/cancelled, confirmed→checked_in, checked_in→checked_out, cancellation_requested→cancelled/pending, refund_requested→refunded/cancelled |
| Lifecycle.CustomerMovesExactly | src/components/BookingManagement.jsx:330-349 | the customer can move from→to iff it is pending/confirmed→cancellation_requested or cancelled→refund_requested |
| Lifecycle.TerminalStatuses | src/admin/components/HotelBookingManagement.jsx:246-322 | no actor moves a checked-out or refunded booking; a cancelled booking admits only the customer's refund request |
| Lifecycle.NoSelfLoops | src/admin/components/HotelBookingManagement.jsx:246-322 | no button writes the status a booking already has |
| Lifecycle.StatusWrite | src/admin/components/HotelBookingManagement.jsx:94-115 | the written document has the target status, `updatedAt` = `now`, the target's stamp = `stampAt` (and `refundProcessedAt` = `processedAt`), every other stamp and all details unchanged (rejecting a refund stamps `cancelledAt` afresh) |
| Lifecycle.MovePreservesConsistency | src/admin/components/HotelBookingManagement.jsx:99-113 | an offered move keeps "stamps present exactly for the statuses that imply them" |
| Lifecycle.MovePreservesChronology | src/admin/components/HotelBookingManagement.jsx:94-113 | an offered move whose readings come in order (`now` ≤ `stampAt` ≤ `processedAt`), none earlier than anything the booking records, keeps earlier writes' stamps ≤ `updatedAt` ≤ the current status's stamps, check-in ≤ check-out, cancel ≤ refund ≤ refund processed, and records nothing after `processedAt` |
| Lifecycle.Run | src/admin/components/HotelBookingManagement.jsx:246-322 | a run of offered clicks never changes the booking's creation-time details |
| Lifecycle.RunPreservesInvariants | src/admin/components/HotelBookingManagement.jsx:94-113 | every run of offered moves on a clock that never goes backwards keeps both invariants |
| Lifecycle.RunFromTerminal | src/admin/components/HotelBookingManagement.jsx:246-322 | no non-empty run of offered moves starts from checked_out or refunded |
| Lifecycle.RefundedWasCancelled | src/admin/components/HotelBookingManagement.jsx:103-113 | a booking refunded by offered moves on a clock that never goes backwards carries `cancelledAt` ≤ `refundedAt` ≤ `refundProcessedAt` |
| Grouping.MatchingMembers | src/admin/index.jsx:56-72 | the group of k holds exactly the snapshot's elements whose key is k |
| Grouping.MatchingSnoc | src/admin/components/HotelBookingManagement.jsx:28-43 | one more document extends exactly the group of its own key |
| Grouping.KeysInOrder | src/admin/components/HotelBookingManagement.jsx:28-43 | the listed keys are distinct |
| Grouping.KeysInOrderMembers | src/admin/components/HotelBookingManagement.jsx:28-43 | the listed keys are exactly the keys occurring in the snapshot |
| Grouping.NoMatchOutsideKeys | src/admin/index.jsx:60-65 | a key not yet listed has collected nothing, so its group starts empty |
| Grouping.KeysInOrderSnoc | src/admin/index.jsx:60-65 | a new key is appended to the key order, a known one leaves it unchanged |
| OperatorConsole.GroupByUser | src/admin/components/HotelBookingManagement.jsx:28-43 | the loop yields one group per user in order of first appearance, each holding exactly that user's bookings in snapshot order, with the contact details of its first booking |
| OperatorConsole.EachBookingInOneGroup | src/admin/components/HotelBookingManagement.jsx:28-43 | every fetched booking is in the group of its `userId` and in no other group |
| OperatorConsole.SortGroups | src/admin/components/HotelBookingManagement.jsx:46-48 | each group is sorted newest first, as a permutation of itself, with its details and key set kept |
| OperatorConsole.Toggled | src/admin/components/HotelBookingManagement.jsx:126-134 | membership of the given e-mail flips; every other membership is kept |
| OperatorConsole.ToggleTwice | src/admin/components/HotelBookingManagement.jsx:126-134 | toggling the same user twice restores the set |
| OperatorConsole.Console.constructor | src/admin/components/HotelBookingManagement.jsx:22-57 | the console starts with no groups, nothing expanded, no refund in progress |
| OperatorConsole.Console.FetchAllBookings | src/admin/components/HotelBookingManagement.jsx:22-57 | on a read, each group is exactly its user's bookings put through the stable newest-first sort, with first-booking details; a failed read changes nothing |
| OperatorConsole.Console.ToggleUserExpanded | src/admin/components/HotelBookingManagement.jsx:126-134 | only the expanded set changes, by `Toggled` |
| OperatorConsole.Console.HandleStatusUpdate | src/admin/components/HotelBookingManagement.jsx:78-124 | a booking not among the loaded groups, or a failed write, changes no data; otherwise the store is patched by `StatusPatch` and, when the refetch succeeds, each group is exactly its user's bookings in the written store put through the stable newest-first sort, with first-booking details, keyed in first-appearance order; a failed refetch keeps the old groups; the spinner is cleared either way |
| CustomerBookings.MergeRead | src/components/BookingManagement.jsx:53-59 | the booking with the read id gets the fresh fields over its own; every other booking is unchanged |
| CustomerBookings.MergeReadOfLaterVersion | src/components/BookingManagement.jsx:53-59 | re-reading a later version replaces the held copy by exactly the stored document |
| CustomerBookings.AfterRead | src/components/BookingManagement.jsx:61-67 | after a read, the id stays watched iff it was watched and the status is still refund_requested; other ids unaffected |
| CustomerBookings.Watch | src/components/BookingManagement.jsx:112 | the id becomes watched and no other membership changes |
| CustomerBookings.WatchTwice | src/components/BookingManagement.jsx:84-90 | watching an already watched id changes nothing, so a second poll is never started |
| CustomerBookings.RefundCountdown | src/components/BookingManagement.jsx:178-188 | a countdown exists iff the id is watched and at most 5 s have elapsed; it is 5 minus the elapsed seconds |
| CustomerBookings.RefundLabel | src/components/BookingManagement.jsx:178-188 | a refund-requested booking is labelled "PROCESSING REFUND (ks)" with k reading back as 5 − elapsed exactly while watched and fresh, otherwise "REFUND REQUESTED" |
| CustomerBookings.InvoiceRegained | src/components/BookingManagement.jsx:319 | the only move that makes the invoice button reappear is the operator rejecting a cancellation (back to pending) |
| CustomerBookings.Page.constructor | src/components/BookingManagement.jsx:14-41 | the page starts with no bookings and nothing watched |
| CustomerBookings.Page.FetchUserBookings | src/components/BookingManagement.jsx:14-41 | with a user and a successful query, the list is that user's bookings put through the stable newest-first sort; otherwise it is unchanged |
| CustomerBookings.Page.HandleRefundRequest | src/components/BookingManagement.jsx:103-120 | a successful write stores refund_requested with `updatedAt` = `now` and nothing else, and adds the id to the watch set; with a user and a successful refetch the list is that user's bookings in the written store put through the stable newest-first sort; otherwise the list is unchanged; a failed write changes nothing |
| CustomerBookings.Page.HandleCancelBooking | src/components/BookingManagement.jsx:122-136 | a successful write stores cancellation_requested with `updatedAt` = `now` and nothing else; with a user and a successful refetch the list is that user's bookings in the written store put through the stable newest-first sort; otherwise the list is unchanged; a failed write changes nothing |
| CustomerBookings.Page.CheckBookingStatus | src/components/BookingManagement.jsx:44-77 | a found document is merged and the watch set updated by `AfterRead`; the notice fires iff the status is refunded; a missing document or failed read changes nothing |
| Pricing.Round | server/index.js:57-58 | `Math.round` lands within half a unit of its argument, halves rounding up |
| Pricing.RoundUnique | server/index.js:57-58 | that bound determines the rounded value |
| Pricing.RoundShift | src/book-hotel/index.jsx:186-190 | rounding commutes with adding a whole number |
| Pricing.AdjustedRate | src/api/stripe-payment.js:84-103 | the adjusted rate is base × 1.2 (Fri/Sat) × 1.3 (Dec/Jan) × 1.1 (more than two guests); it equals the base when no rule applies and stays within [base, 1.716 × base] |
| Pricing.CalculateDynamicPricing | src/api/stripe-payment.js:84-115 | total rounds the unrounded rate × nights, tax rounds 18% of the total, final = total + tax exactly, reported base rounds the adjusted rate |
| Pricing.CatalogueRate | server/index.js:37-44 | the four products cost 3500/6000/12000/8000 and any other id that is not inherited from `Object.prototype` costs 3500 |
| Pricing.ServerRoomPricing | server/index.js:31-68 | the route prices the catalogue rate dynamically; final = total + tax; currency INR; off-peak for at most two guests it quotes the catalogue rate × nights |
| Pricing.AdjustedRateOnMultipleOf500 | server/index.js:48-55 | the surcharges turn a multiple of 500 rupees into a whole number of rupees |
| Pricing.ServerTotalIsRateTimesNights | server/index.js:57-62 | on the server's catalogue the reported total is exactly the reported base price × nights |
| Pricing.GatewayRoomPricing | src/api/stripe-payment.js:10-51 | a failed gateway call or an empty price list is a 500 "Failed to fetch pricing"; otherwise the first price / 100 is priced dynamically |
| Pricing.FallbackRate | src/book-hotel/index.jsx:176-183 | the fallback rate is one of 3500/6000/12000/8000 |
| Pricing.FallbackPricing | src/book-hotel/index.jsx:176-193 | fallback total = rate × nights, tax rounds 18% of it, and `Math.round(total × 1.18)` equals total + tax |
| Pricing.ServerAgreesWithFallback | src/book-hotel/index.jsx:176-193 | off-peak, weekday, at most two guests: the server and the fallback quote the same base, total, tax and final price for every listed room |
| PaymentApi.AmountAcceptedIffPositiveWhole | server/index.js:84-89 | the amount check accepts exactly the positive whole numbers of paise |
| PaymentApi.CreateIntentError | server/index.js:118-139 | authentication → 401, card → 402 with the gateway's message, invalid request → 400, anything else → 500 |
| PaymentApi.RefundError | server/index.js:249-266 | authentication → 401, invalid request → 400, anything else (card errors included) → 500 |
| PaymentApi.ErrorStatusesAgree | server/index.js:118-139 | the two endpoints give the same status iff the error is not a card error, and the same answer for authentication and invalid-request errors |
| PaymentApi.CreatePaymentIntent | server/index.js:79-141 | a bad amount is a 400 before the currency is looked at; a missing currency, or one not lower-casing to "inr", is a 400; a truthy non-string currency or unreadable booking details is the generic 500; success iff amount, currency and booking details pass and the gateway succeeds, returning its intent; a gateway error after the checks is answered by `CreateIntentError` of its kind and message |
| PaymentApi.RejectedBeforeGateway | server/index.js:84-96 | a request the checks turn away fails whatever the gateway would answer |
| PaymentApi.InrAccepted | server/index.js:91 | "inr" in any letter case passes the currency check |
| PaymentApi.ProcessRefund | server/index.js:238-268 | success iff the gateway refunds, carrying its refund id; a gateway error is answered by `RefundError` of its kind and message, so a failure is 400, 401 or 500 |
| PaymentApi.DownloadInvoice | server/index.js:144-209 | 400 "Invalid booking data" iff the body or its `bookingId` is missing or empty; the file is `invoice-<invoiceId>.pdf`; subtotal + taxes = total, missing figures counting 0 |
| BookHotel.FindRoom | src/book-hotel/index.jsx:42-75 | the room found has the requested id; none is found iff no catalogue room has it |
| BookHotel.RoomCatalogue | src/book-hotel/index.jsx:42-75 | each room's product is `prod_<id>_room`, capacities are 2/3/4/6, and the server's rate for the product equals the page's fallback rate |
| BookHotel.HandleInputChange | src/book-hotel/index.jsx:77-82 | the named field takes the value; every other field is kept |
| BookHotel.FirstMissing | src/book-hotel/index.jsx:85-92 | none is reported iff every required field is filled; a reported field is required and empty |
| BookHotel.FirstMissingIsFirst | src/book-hotel/index.jsx:85-92 | the reported field is the first empty one: every field checked before it is filled |
| BookHotel.LabelOfWord | src/book-hotel/index.jsx:89 | a one-word field is named as it is |
| BookHotel.LabelOfCamelCase | src/book-hotel/index.jsx:89 | a camel-case field is named by its words, lower-cased and separated by a space ("room type", "check in") |
| BookHotel.ValidEmailIffShape | src/book-hotel/index.jsx:95-96 | the e-mail check holds iff the string is `[^\s@]+@[^\s@]+\.[^\s@]+` |
| BookHotel.FormAccepted | src/book-hotel/index.jsx:84-132 | the form is accepted iff all fields are filled, e-mail and mobile are valid, check-in ≥ today, check-out > check-in and the guests fit the room |
| BookHotel.ValidateForm | src/book-hotel/index.jsx:84-132 | the loop and the checks that follow report exactly the error `FormError` specifies |
| BookHotel.CalculateDuration | src/book-hotel/index.jsx:134-143 | 0 when a date is empty; otherwise the least number of days covering the gap |
| BookHotel.DurationSymmetric | src/book-hotel/index.jsx:134-143 | the duration is symmetric in the two dates, and n whole days give n |
| BookHotel.FetchRoomPricing | src/book-hotel/index.jsx:145-198 | pricing exists iff the form is accepted; with no live answer or an unknown room it is the fallback; with a live answer for a known room it is that answer |
| BookHotel.PaymentRequest | src/book-hotel/index.jsx:201-226 | accepted iff there is a user and pricing with a non-zero final price; refused with the sign-in notice without a user, else with the pricing notice; an accepted request asks for final price × 100 paise in "inr" |
| BookHotel.ServerAcceptsPageAmount | src/book-hotel/index.jsx:210-224 | a positive final price passes the server's amount and currency checks and reaches the gateway; a negative one is a 400 |
| BookHotel.NewBooking | src/book-hotel/index.jsx:271-303 | the record is pending and paid, `bookingId` = "BK" + now, `invoiceId` = "INV" + `bookingId`, guests parsed, total = final price, room from the catalogue, no stamps |
| BookHotel.NewBookingStartsValid | src/book-hotel/index.jsx:293-295 | a new pending, never-written booking satisfies both life-cycle invariants |
| BookHotel.BookingIdReadsBack | src/book-hotel/index.jsx:274-297 | the booking id reads back as its instant, and the invoice id starts "INVBK" |
| BookHotel.InvoiceOfNewBooking | src/components/BookingManagement.jsx:194-209 | a booking made on the page always gets an invoice named after its invoice id, whose subtotal is the quoted total before tax |
| BookHotel.PaymentSuccessAsWritten | src/book-hotel/index.jsx:254-264 | as written, the page always confirms the booking |
| BookHotel.AsWrittenConfirmsUnsavedBooking | src/book-hotel/index.jsx:304-307 | as written, a failed save is confirmed while the store lacks the booking |
| BookHotel.PaymentSuccess | src/book-hotel/index.jsx:254-264 | corrected: confirmed iff the write succeeded, otherwise the "failed to save" notice |
| BookHotel.ConfirmedMeansStored | src/book-hotel/index.jsx:254-264 | corrected: confirmation iff the store holds the new booking |
| AdminPanel.SumTotalsBump | src/admin/index.jsx:71 | raising one counter by one raises the sum of counters by one |
| AdminPanel.FoldIsGroupsOf | src/admin/index.jsx:56-72 | a finished fold is the map that holds each key's documents and their number |
| AdminPanel.GroupWithCounts | src/admin/index.jsx:56-72 | keys in order of first appearance; each group holds exactly its key's documents in snapshot order; each counter equals its group's length; counters sum to the number of documents |
| AdminPanel.InOwnGroupOnly | src/admin/index.jsx:86-102 | a document is in the group of its own key and no other |
| AdminPanel.Cards | src/admin/index.jsx:182-189 | one card per key of the trips map, in its order, carrying the booking group iff the user has one |
| AdminPanel.CardsAreTripOwners | src/admin/index.jsx:182-189 | a user gets a card iff they own a trip; a user with bookings only gets none |
| AdminPanel.Panel.constructor | src/admin/index.jsx:29-37 | the dashboard starts locked and empty |
| AdminPanel.Panel.FetchData | src/admin/index.jsx:39-49 | each successful read replaces its map by the grouped fold (trip counters summing to the trips read); a failed read keeps its map and raises the notice |
| AdminPanel.Panel.HandleLogin | src/admin/index.jsx:29-37 | authenticated iff the credentials are admin/admin123; wrong credentials change nothing; after a login each read that succeeds replaces its map by the grouped fold, one that fails keeps its map, and the error notice is raised iff a read fails |
| CreateTrip.FillInOrder | src/create-trip/index.jsx:78-82 | the first-occurrence replace chain puts each answer in its placeholder when earlier text and answers hold no '{' |
| CreateTrip.FinalPromptFillsPlaceholders | src/constants/options.jsx:54 | the prompt is the template text with location, days, traveller and budget in place |
| CreateTrip.ValidDaysOfNumeral | src/create-trip/index.jsx:103-106 | a typed number of days is valid iff it is positive |
| CreateTrip.Wizard.constructor | src/create-trip/index.jsx:24-34 | the wizard starts at step 1 with the default location and the dialog closed |
| CreateTrip.Wizard.HandleInputChange | src/create-trip/index.jsx:37-42 | only the named answer changes |
| CreateTrip.Wizard.NextStep | src/create-trip/index.jsx:108-126 | each failed gate gives its notice and keeps the step; with all gates passed the step advances, stopping at 4; the step stays within 1..4 |
| CreateTrip.Wizard.PrevStep | src/create-trip/index.jsx:128-130 | one step back, never below 1 |
| CreateTrip.Wizard.OnGenerateTrip | src/create-trip/index.jsx:66-87 | without a user the dialog opens; with an answer missing "Please fill all details!"; otherwise the filled prompt is produced |
| Js.NatToString | src/components/BookingManagement.jsx:185 | `${n}` is a non-empty numeral whose value is n |
| Js.ParseInt | src/create-trip/index.jsx:103-106 | `parseInt` gives NaN iff no digit follows the white space and sign |
| Js.ParseIntNatToString | src/create-trip/index.jsx:103-106 | `parseInt` of a printed number gives the number back |
| Js.ReplaceFirst | src/create-trip/index.jsx:78-82 | `replace` with a string pattern changes only the first occurrence, and nothing when the pattern is absent |
| Js.ReplaceFirstAfterPlainPrefix | src/create-trip/index.jsx:78-82 | an occurrence preceded by text that cannot start the pattern is the one replaced |
| Js.ToLower | server/index.js:91 | `toLowerCase` maps each ASCII capital to its lower case and keeps the length |
| Js.WithField | src/create-trip/index.jsx:37-42 | the spread sets the named key and keeps every other key and value |

## Left out

- Database, gateway, HTTP and PDF I/O are left out. Firestore reads and writes, the Stripe SDK, `fetch`, and PDF rendering are foreign calls. They appear only as the values they return, and the invoice's PDF layout is not modelled.
- The payment form, the gateway's client-side confirmation and `handlePaymentError` are left out. They are gateway UI.
- Timers are left out.
  - The 30-second wait before the refund stamps is not measured. `stampAt` and `processedAt` are later clock readings, but nothing requires `stampAt` to be 30 seconds after `now`.
  - The two-second poll loop is modelled only as its watch set and one re-read.
  - Timer clean-up is not modelled.
- Concurrency is left out, including last-writer-wins races between operators and the buttons disabled while a request is in flight. The pages are modelled as one event at a time.
- Date parsing and time zones are left out.
  - Form dates reach the model through `dateOf`, and today's midnight through `today`.
  - Invalid dates (NaN) are not modelled.
  - `createdAt`/`updatedAt` ISO strings are instants in milliseconds.
- Floating point is left out. Prices use exact rationals, so IEEE-754 rounding artefacts are not captured.
- Pricing's string coercion of `guests` (`"3" > 2`) is not modelled. The server takes guests as an integer.
- The pricing route's catch block (a 500) is not modelled. The model's pricing inputs are always well-formed numbers.
- `Js.ParseInt` does not model the "0x" hexadecimal prefix. `parseInt` of such a string is not needed by the forms.
- `Js.ReplaceFirst` does not model the `$` patterns of a replacement string. The model treats answers as literal text.
- `Js.ToLower` lower-cases ASCII letters only. The only currency compared is "inr".
- `CreateTrip.FinalPrompt` reads a missing answer as "" where JavaScript would insert "undefined". The prompt is only sent when all four answers are filled.
- The AI generation call, `JSON.parse` of its answer and `SaveAiTrip` are left out. They are foreign calls.
- OAuth sign-in and `localStorage`/`sessionStorage` are left out. The signed-in user is a parameter: `signedIn`, `user` or `userEmail`.
- The admin panel's `adminAuth` session flag is left out. It is browser storage.
- The stripe-payment.js undiscounted totals (lines 26-28) are not modelled, because the code computes them and never uses them.
- `AdminPanel.Panel.FetchData` treats the two reads as independent. With `Promise.all`, one read can fail after the other has already stored its map; the model gives exactly that outcome.
- A trip without `userEmail` is grouped under the key "undefined" in JavaScript. The model keys trips by a string field that is always present.
- The client's download filename fallback and the blob download are left out. They are browser I/O.
- `OperatorConsole.Console.HandleStatusUpdate` does not model that the refetch after the write is not awaited. The page may show the success notice and accept other clicks before the groups are replaced; the model applies the refetch, or its failure (`refetched` false), at once.
- `CustomerBookings.Page.HandleRefundRequest` and `CustomerBookings.Page.HandleCancelBooking` likewise apply their unawaited refetch, or its failure, at once.
- `Pricing.CatalogueRate` does not model ids inherited from `Object.prototype` ("constructor", "toString", "__proto__" and the like). For those `basePrices[productId]` is a function or object, not a number, so every figure becomes NaN or a string; the model prices them at 3500 like any other unknown id.
- `Pricing.FallbackRate` does not model room ids inherited from `Object.prototype`, as for `Pricing.CatalogueRate`. The page cannot hold such an id, because only the room cards set `roomType`.
- `BookHotel.NewBooking` uses one instant, `nowMs`, for both `Date.now()` in the booking id and `new Date()` in `createdAt`. The two readings can differ by a few milliseconds in the code.
- `CustomerBookings.ElapsedSeconds` and `CustomerBookings.RefundCountdown` use one `now` for both `new Date()` readings of the countdown: the fallback request time when `updatedAt` is absent, and the current time. The code takes them a moment apart.
- `Pricing.ServerRoomPricing` does not state the surcharged figures directly. They are stated on `CalculateDynamicPricing`, which it calls.
- Dictionary iteration order is modelled as the order in which keys are first inserted. This is the JavaScript order for keys that are not integer-like.

## Findings

| source | as written | input that shows it | evidently intended | confidence | as-written member | corrected member |
|---|---|---|---|---|---|---|
| src/book-hotel/index.jsx:254-264, 304-307 | `saveBookingToFirebase` catches its own write error and only shows a notice, so `handlePaymentSuccess` always goes on to "Payment successful! Booking confirmed." | a successful payment whose booking write fails: the store does not hold the booking, yet the page confirms it (and never shows its own "failed to save booking" notice) | the write error reaches `handlePaymentSuccess`, which confirms only a stored booking and otherwise tells the customer the booking was not saved | not executed | BookHotel.PaymentSuccessAsWritten, BookHotel.AsWrittenConfirmsUnsavedBooking | BookHotel.PaymentSuccess, BookHotel.ConfirmedMeansStored |
