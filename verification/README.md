# Flight booking wizard — a verified model of its rules

The application is a single-page flight booking wizard written with React.
A traveller searches, picks an offer, fills in one form per passenger,
pays, and sees a confirmation; "My Bookings" looks up stored bookings. Most
of the code is markup. This project models the rules inside it and proves
what they promise:

- **Payment** (`payment.dfy`, module `Payment`):
  - the card-field checks that `validateForm` writes into its error record;
  - the card-number formatter, which groups digits in fours;
  - the expiry `MM/YY` reformatter and the CVV digit filter;
  - the price breakdown, the payment descriptor and the confirmed booking
    record the submit stores in the session.
  - The page is a class `PaymentPage` whose fields are the page's state
    cells.
- **Passenger information** (`passenger_info.dfy`, module `PassengerInfo`):
  - the seeded list of blank passengers and their types;
  - the contact-email pattern and the phone presence check;
  - the seven required passenger fields, and the error record they fill,
    passenger by passenger;
  - single-field edits and special-request checkboxes;
  - the submit that stores the list in the session.
  - The page is a class `PassengerInfoPage`.
- **My Bookings** (`my_bookings.dfy`, module `MyBookings`):
  - the order-preserving, case-insensitive search over stored bookings;
  - the one-open-at-a-time booking toggle;
  - the mobile search-form toggle, the two query inputs and "Try Again".
- **Session store** (`app_context.dfy`, module `AppContext`): the provider's
  four state cells, as a class `AppSession` whose setters take a value or an
  updater, and the failure of reading the context outside a provider.
- **Progress bar** (`booking_steps.dfy`, module `BookingSteps`): the five
  steps, their completion read off the route, and the current step.
- **Seat map** (`seat_map.dfy`, module `SeatMapView`):
  - seat ids and the lookup of a seat by position;
  - which seats can be clicked, and the precedence of their appearances;
  - the column headers and the order in which rows are drawn;
  - the hovered-seat state, as class `SeatMapComponent`.
- **Mock seat map** (`mock_seat_map.dfy`, module `MockSeatMap`): the nested
  loop that pushes 30 × 6 seats with type, surcharge and availability.
- **Booking reference** (`helpers.dfy`, module `Helpers`): the two loops of
  `generateBookingNumber`, two letters then four digits.
- **Flight card** (`flight_card.dfy`, module `FlightCard`): fare-class
  labels, the stops label, the displayed segment and the select route.

`types.dfy` holds the records of `src/types/index.ts` as datatypes.
`wrappers.dfy` holds `Option` and `Result`. `text.dfy` holds the string
primitives the rules use:
- JavaScript's `\s` and `\d` classes;
- `replace` with those classes;
- `includes`, ASCII `toLowerCase` and `findIndex`;
- `filter`, `join` and `slice(-k)`;
- decimal rendering.

Nothing here talks to a browser. The inputs the source reads from the outside
world are parameters of the model:
- the `Math.random()` draws;
- the ids from `generateUniqueId`;
- the current date;
- whether the viewport is narrow.

Money amounts are mathematical reals.

Three rules of the code are easy to misread:
- A passenger's type is not always adult: the seeding effect makes the last
  of two or more passengers a child (`InitialType`).
- The email test is an unanchored `\S+@\S+\.\S+`, which accepts
  `x y@b.c z` and `a@@b.c` (`EmailPatternAcceptsSurrounded`,
  `EmailPatternAcceptsDoubleAt`).
- The grouped card number is what gets validated, and it passes only when
  the input had at least sixteen digits (`FormattedCardAccepted`).

## Model

| member | source | states |
|---|---|---|
| Payment.CardNumberError | src/pages/Payment.tsx:36-40 | "required" exactly for the empty number; otherwise no message exactly when, with every `\s` character deleted, it is 16 ASCII digits, and the format message otherwise |
| Payment.CardNameError | src/pages/Payment.tsx:42-44 | a message, "Cardholder name is required", exactly when the name is empty |
| Payment.ExpiryError | src/pages/Payment.tsx:46-50 | "required" exactly for the empty date; no message exactly for `MM/YY` with month 01-12; the format message otherwise |
| Payment.CvvError | src/pages/Payment.tsx:52-56 | "required" exactly for the empty CVV; no message exactly for 3 or 4 digits; the format message otherwise |
| Payment.DigitOnlyCardNumbers | src/pages/Payment.tsx:36-40 | a non-empty number typed as digits only is accepted iff it has 16 digits, and otherwise gets the 16-digit message |
| Payment.FieldNamesDistinct | src/pages/Payment.tsx:37-55 | the four error-record keys are distinct property names |
| Payment.PaymentErrors | src/pages/Payment.tsx:32-61 | only the card method is checked, so PayPal and Apple Pay give an empty record; each key is present iff its field check fails, and holds that check's single message; the record is empty iff a non-card method is chosen or every field passes |
| Payment.CollectPaymentErrors | src/pages/Payment.tsx:33-57 | the if/else-if chains writing into a fresh record build exactly `PaymentErrors` |
| Payment.PaymentPage.ValidateForm | src/pages/Payment.tsx:32-61 | stores `PaymentErrors` of the page's fields and returns true iff it has no key |
| Payment.FirstDigitRun | src/pages/Payment.tsx:103-104 | on a digit string: its first min(16, n) digits when it has at least 4, otherwise the empty string |
| Payment.Chunks4 | src/pages/Payment.tsx:107-109 | ⌈n/4⌉ groups; group k is the digits from 4k up to 4k+4 (the last may be shorter) |
| Payment.GroupInFours | src/pages/Payment.tsx:105-109 | the `for` loop pushing `substring(i, i + 4)` produces exactly `Chunks4` |
| Payment.CardNumberDisplay | src/pages/Payment.tsx:101-116 | with fewer than 4 digits the input comes back unchanged; otherwise deleting the spaces gives exactly the first min(16, n) digits, the result has at most 19 characters (exactly m + (m + 3) / 4 − 1 for m = min(16, n)), and a character is a space iff its position is 4 modulo 5, so the digits come in groups of four separated by single spaces |
| Payment.ChunksJoinDigits | src/pages/Payment.tsx:107-112 | deleting the separators from the joined groups gives the digits back |
| Payment.ChunksJoinSpacing | src/pages/Payment.tsx:107-112 | in the joined groups of a non-empty digit string, a character is a space iff its position is 4 modulo 5 |
| Payment.ChunksJoinLength | src/pages/Payment.tsx:107-112 | the joined groups are n digits plus one space between consecutive groups |
| Payment.FormatCardNumber | src/pages/Payment.tsx:101-116 | the method returns `CardNumberDisplay` of its input |
| Payment.PaymentPage.OnCardNumberChange | src/pages/Payment.tsx:118-121 | the stored card number is the formatted input |
| Payment.FormattedCardAccepted | src/pages/Payment.tsx:101-116 | an input with at least 4 digits passes the card-number check once formatted iff it has at least 16 digits; with 4 to 15 it gets the 16-digit message |
| Payment.FormattedCardEnding | src/pages/Payment.tsx:101-116 | the last four characters of a formatted 16-digit number are its 13th to 16th digits |
| Payment.JoinEndsWithLast | src/pages/Payment.tsx:112 | a joined list ends with its last part |
| Payment.ReformatExpiry | src/pages/Payment.tsx:123-132 | non-digits are removed; with at most 2 digits the result is the digits; otherwise it is the first two digits, `/`, and the next at most two digits (4 or 5 characters) |
| Payment.PaymentPage.OnExpiryDateChange | src/pages/Payment.tsx:123-132 | the handler's reassignments store `ReformatExpiry` of the input |
| Payment.ReformattedExpiryAccepted | src/pages/Payment.tsx:123-132 | a reformatted date passes the expiry check iff at least 4 digits were typed and the first two form a month 01-12 |
| Payment.PaymentPage.OnCvvChange | src/pages/Payment.tsx:252 | the stored CVV is the input's digits |
| Payment.CvvInputAccepted | src/pages/Payment.tsx:252 | the stored CVV passes iff 3 or 4 digits were typed, and gets "required" iff none were |
| Payment.PriceFor | src/pages/Payment.tsx:26-30 | subtotal is the fare times the searched passenger count, taxes are 12% of it, and the total is their sum (1.12 times the subtotal) |
| Payment.PriceExample | src/pages/Payment.tsx:26-30 | two passengers at 689 give 1378, 165.36 and 1543.36 |
| Payment.PaymentDescriptor | src/pages/Payment.tsx:88-92 | the card method gives "Card ending in " followed by the last four characters of the number (all of a shorter one); the others give "PayPal" or "Apple Pay" |
| Payment.DescriptorOfFormattedCard | src/pages/Payment.tsx:88-89 | a card entered with at least 16 digits is described by its 13th to 16th digits |
| Payment.BuildBooking | src/pages/Payment.tsx:73-94 | the record is confirmed, one way, carries the placeholder contact `user@example.com` / `+1234567890`, and the given reference, date, flight, passengers, price and descriptor |
| Payment.View | src/pages/Payment.tsx:21-24 | the form shows iff a flight is chosen and there are passengers; otherwise the page goes back to the start |
| Payment.PaymentPage.constructor | src/pages/Payment.tsx:13-19 | empty fields, the card method, not loading, no errors |
| Payment.PaymentPage.SelectMethod | src/pages/Payment.tsx:155-181 | the chosen method is stored |
| Payment.PaymentPage.OnCardNameChange | src/pages/Payment.tsx:219 | the typed name is stored |
| Payment.PaymentPage.HandleSubmit | src/pages/Payment.tsx:63-99 | stores `PaymentErrors`; moves on iff it is empty, and then sets loading and stores the confirmed booking built from the drawn reference, the session's flight and passengers, the price and the descriptor; otherwise the session's booking is unchanged; the other session cells never change |
| Payment.StoredBookingShape | src/pages/Payment.tsx:73-93 | a stored booking has a two-letters-four-digits reference and is confirmed |
| PassengerInfo.InitialType | src/pages/PassengerInfo.tsx:21 | never infant; a child exactly for the last of two or more passengers, otherwise an adult |
| PassengerInfo.InitialPassengers | src/pages/PassengerInfo.tsx:19-30 | exactly n passengers with the given ids, the type rule, no seat, no requests and every required field missing |
| PassengerInfo.PassengerInfoPage.SeedPassengers | src/pages/PassengerInfo.tsx:16-33 | the list is seeded only when passengers were requested and the form is empty; otherwise it is unchanged |
| PassengerInfo.PassengerInfoPage.constructor | src/pages/PassengerInfo.tsx:11-14 | an empty form, empty contact fields and no errors |
| PassengerInfo.Rank | src/pages/PassengerInfo.tsx:53-61 | each required field's position in the checking order |
| PassengerInfo.MessageInjective | src/pages/PassengerInfo.tsx:53-61 | no two required fields share a message |
| PassengerInfo.MissingUpToFacts | src/pages/PassengerInfo.tsx:53-61 | the first n checks report exactly the missing fields among the first n, each once, in checking order |
| PassengerInfo.MessagesMatchFields | src/pages/PassengerInfo.tsx:53-61 | the first n checks push one message per reported field, in the same order |
| PassengerInfo.MissingFields | src/pages/PassengerInfo.tsx:53-61 | a field is reported iff it is missing (absent or empty); at most seven; none iff the passenger is complete |
| PassengerInfo.MissingFieldsInOrder | src/pages/PassengerInfo.tsx:53-61 | the reported fields follow the order title, first name, last name, date of birth, nationality, passport number, passport expiry |
| PassengerInfo.PassengerMessages | src/pages/PassengerInfo.tsx:51-61 | at most seven messages, none iff the passenger is complete |
| PassengerInfo.MessagesFollowFields | src/pages/PassengerInfo.tsx:53-61 | message k is the message of the k-th missing field |
| PassengerInfo.MessageMembership | src/pages/PassengerInfo.tsx:53-61 | a field's message is present iff the field is missing |
| PassengerInfo.CollectPassengerErrors | src/pages/PassengerInfo.tsx:51-61 | the seven conditional pushes produce exactly `PassengerMessages` |
| PassengerInfo.SeededPassengerFailsEveryCheck | src/pages/PassengerInfo.tsx:19-61 | a freshly seeded passenger fails all seven checks, in order |
| PassengerInfo.AllMissingUpTo | src/pages/PassengerInfo.tsx:53-61 | with every field missing, the first n checks report the first n fields |
| PassengerInfo.EmailPatternShortest | src/pages/PassengerInfo.tsx:41 | the unanchored pattern matches iff some `@` has a non-space before it, a `.` after one or more non-spaces, and a non-space after that |
| PassengerInfo.EmailPatternAcceptsPlain | src/pages/PassengerInfo.tsx:41 | "a@b.c" is accepted |
| PassengerInfo.EmailPatternAcceptsSurrounded | src/pages/PassengerInfo.tsx:41 | the pattern is unanchored: "x y@b.c z" is accepted |
| PassengerInfo.EmailPatternAcceptsDoubleAt | src/pages/PassengerInfo.tsx:41 | `\S` admits `@`: "a@@b.c" is accepted |
| PassengerInfo.EmailPatternRejects | src/pages/PassengerInfo.tsx:41 | "a@.c" and "a @b.c" are rejected |
| PassengerInfo.NoMatchExample | src/pages/PassengerInfo.tsx:41 | neither of the two rejected examples has a match |
| PassengerInfo.EmailError | src/pages/PassengerInfo.tsx:39-43 | "required" iff the email is empty; the invalid message iff it is non-empty and has no match; nothing iff it matches |
| PassengerInfo.KeyNamesDistinct | src/pages/PassengerInfo.tsx:40-64 | `contactEmail`, `contactPhone` and `passenger${i}` name different properties for different keys |
| PassengerInfo.ContactErrors | src/pages/PassengerInfo.tsx:39-47 | the email key is present iff the email check fails, with its one message; the phone key is present iff the phone is empty, with no format check; no passenger keys |
| PassengerInfo.CollectContactErrors | src/pages/PassengerInfo.tsx:36-47 | the conditional writes into a fresh record build exactly `ContactErrors` |
| PassengerInfo.AllPassengerMessages | src/pages/PassengerInfo.tsx:50-61 | one message list per passenger, in form order |
| PassengerInfo.PassengerErrors | src/pages/PassengerInfo.tsx:50-66 | among the first n passengers, key `passenger{i}` is present iff passenger i has a message, and holds its messages; no other keys |
| PassengerInfo.ValidationErrors | src/pages/PassengerInfo.tsx:35-70 | the contact entries as above, the phone entry holding "Phone number is required"; key `passenger{i}` iff passenger i is incomplete, holding its messages; no key beyond the list; empty iff the email matches, the phone is non-empty and every passenger is complete |
| PassengerInfo.UpdateOfUnion | src/pages/PassengerInfo.tsx:64 | writing a key after the contact entries equals writing it into the passenger entries |
| PassengerInfo.EmptyIffNoKeys | src/pages/PassengerInfo.tsx:69 | `Object.keys(errors).length === 0` iff the record is empty |
| PassengerInfo.CollectErrors | src/pages/PassengerInfo.tsx:35-66 | contact checks then the passenger loop build exactly `ValidationErrors` |
| PassengerInfo.AddPassengerErrors | src/pages/PassengerInfo.tsx:50-66 | the `forEach` adds, to the contact entries, exactly the passenger entries |
| PassengerInfo.AddPassengerEntry | src/pages/PassengerInfo.tsx:50-66 | one callback extends the record by that passenger's entry, if any |
| PassengerInfo.CollectStep | src/pages/PassengerInfo.tsx:63-65 | one iteration's conditional write gives the record of one more passenger |
| PassengerInfo.PassengerInfoPage.ValidateForm | src/pages/PassengerInfo.tsx:35-70 | stores `ValidationErrors` of the form and returns true iff it is empty |
| PassengerInfo.WithField | src/pages/PassengerInfo.tsx:74-77 | the edited field takes the value; every other field, the id, the seat and the requests are unchanged |
| PassengerInfo.PassengerInfoPage.HandlePassengerChange | src/pages/PassengerInfo.tsx:72-79 | only the passenger at the index is replaced, by the edited one; the length and the other passengers are unchanged |
| PassengerInfo.FillingFieldClearsItsMessage | src/pages/PassengerInfo.tsx:72-79 | filling a field with a non-empty value removes exactly its message and leaves the others' presence unchanged |
| PassengerInfo.ToggleRequest | src/pages/PassengerInfo.tsx:83-95 | checking appends the tag even when present; unchecking removes every copy, keeps the rest in order with their counts; the tag is present afterwards iff checked |
| PassengerInfo.UncheckUndoesCheck | src/pages/PassengerInfo.tsx:85-95 | unchecking after checking gives what unchecking alone gives |
| PassengerInfo.WithRequest | src/pages/PassengerInfo.tsx:81-95 | the new request list is `ToggleRequest` of the old one (a missing list read as empty), so the other tags are kept; the checkbox reads as checked afterwards iff it was checked; nothing but the requests changes |
| PassengerInfo.PassengerInfoPage.HandleSpecialRequest | src/pages/PassengerInfo.tsx:81-98 | only the passenger at the index changes, by `WithRequest`, and its checkbox then shows the new state |
| PassengerInfo.PassengerInfoPage.SetContactEmail | src/pages/PassengerInfo.tsx:148 | the typed email is stored |
| PassengerInfo.PassengerInfoPage.SetContactPhone | src/pages/PassengerInfo.tsx:163 | the typed phone is stored |
| PassengerInfo.View | src/pages/PassengerInfo.tsx:116-119 | without a chosen flight the page goes back to the start |
| PassengerInfo.PassengerInfoPage.HandleSubmit | src/pages/PassengerInfo.tsx:100-114 | stores `ValidationErrors`; moves on iff it is empty, and then the session's passengers are exactly the form list; otherwise they are unchanged; the other session cells never change |
| MyBookings.SearchBookings | src/pages/MyBookings.tsx:21-24 | the result is an order-preserving subsequence of the bookings; a booking is in it iff it is stored and matches, as often as it is stored; with both queries empty every booking is returned |
| MyBookings.EmptyLastNameGuardMatters | src/pages/MyBookings.tsx:23 | a booking with no passengers matches empty queries only because of the empty-name test |
| MyBookings.OwnReferenceFound | src/pages/MyBookings.tsx:22 | searching for a booking's own reference finds it |
| MyBookings.HandleSearch | src/pages/MyBookings.tsx:17-33 | stores the search results for the typed queries and marks a search as performed; the form is hidden on a narrow viewport and otherwise unchanged; the queries and the expanded booking are unchanged |
| MyBookings.ToggleBookingDetails | src/pages/MyBookings.tsx:35-37 | no booking is expanded afterwards iff the toggled one was; otherwise exactly the toggled one is; nothing else changes |
| MyBookings.ToggleTwice | src/pages/MyBookings.tsx:35-37 | toggling twice restores the page when that booking or none was expanded, and otherwise leaves none expanded |
| MyBookings.SetBookingReference | src/pages/MyBookings.tsx:75 | only the typed reference changes |
| MyBookings.SetLastName | src/pages/MyBookings.tsx:87 | only the typed last name changes |
| MyBookings.SearchUsesTypedQueries | src/pages/MyBookings.tsx:21-24 | a search after typing looks for exactly what was typed |
| MyBookings.ToggleSearchForm | src/pages/MyBookings.tsx:54 | the form's visibility flips and nothing else changes |
| MyBookings.ToggleSearchFormTwice | src/pages/MyBookings.tsx:54 | pressing the button twice restores the page |
| MyBookings.TryAgain | src/pages/MyBookings.tsx:129-134 | both queries become empty, no search is marked as performed, and the form is shown; results and the expanded booking are unchanged |
| MyBookings.TryAgainRestoresInitialPage | src/pages/MyBookings.tsx:10-15 | from a page with no results and nothing expanded, "Try Again" gives back the initial page: empty queries, no results, nothing expanded, form shown, no search performed |
| MyBookings.TryAgainThenSearchListsAll | src/pages/MyBookings.tsx:129-134 | a search right after "Try Again" lists every booking |
| AppContext.AppSession.constructor | src/context/AppContext.tsx:15-30 | empty route and dates, one passenger, economy; no flight, no passengers, no booking |
| AppContext.AppSession.SetSearchParams | src/context/AppContext.tsx:27 | the cell takes the new value, or the updater applied to the old one; the other three cells are unchanged |
| AppContext.AppSession.SetSelectedFlight | src/context/AppContext.tsx:28 | the same for the selected flight |
| AppContext.AppSession.SetPassengers | src/context/AppContext.tsx:29 | the same for the passengers |
| AppContext.AppSession.SetBookingDetails | src/context/AppContext.tsx:30 | the same for the booking |
| AppContext.UseAppContext | src/context/AppContext.tsx:50-56 | fails, with "useAppContext must be used within an AppProvider", iff there is no provider; otherwise returns the provider's session |
| BookingSteps.Steps | src/components/BookingSteps.tsx:9-15 | five steps in the order Search, Select Flight, Passenger Info, Payment, Confirmation; Search is always completed; any later step is completed iff the route contains its path or a later step's; completion is monotone; `/confirmation` completes all; `/payment` without `/confirmation` completes all but the last |
| BookingSteps.CurrentStepIndex | src/components/BookingSteps.tsx:17-19 | the least index whose step path occurs in the route, or -1 when none does |
| BookingSteps.SelectPathProgress | src/components/BookingSteps.tsx:11-19 | on the route "Select" leads to, "Select Flight" is completed and the current step is Search or Select Flight |
| BookingSteps.StepPathsAnchored | src/components/BookingSteps.tsx:17-19 | on a route whose only slash is the first character, a step path occurs iff it is a prefix |
| BookingSteps.StepRouteIsCurrent | src/components/BookingSteps.tsx:17-19 | on the Search, Passenger Info, Payment and Confirmation routes the current step is that page's own |
| BookingSteps.StepPathNotInOther | src/components/BookingSteps.tsx:10-14 | no step path occurs in a later step's path |
| BookingSteps.HomeRouteHasNoStep | src/components/BookingSteps.tsx:17-19 | the home route has no current step |
| SeatMapView.SeatId | src/components/SeatMap.tsx:14 | the id is the decimal row followed by the column |
| SeatMapView.SeatIdInjective | src/components/SeatMap.tsx:14 | with single-letter columns, equal ids mean equal row and column |
| SeatMapView.FindSeat | src/components/SeatMap.tsx:15-17 | nothing iff no seat is at the position; otherwise the first seat there |
| SeatMapView.ClickSeat | src/components/SeatMap.tsx:21-45 | a click passes the seat id on iff the seat is available |
| SeatMapView.Look | src/components/SeatMap.tsx:19-39 | selected beats hovered-and-available, which beats available by type (premium, extra legroom, otherwise standard), which beats unavailable |
| SeatMapView.LookAgreesWithClick | src/components/SeatMap.tsx:21-45 | a seat drawn unavailable never fires the callback; a selected unavailable seat is drawn selected and a click on it does nothing |
| SeatMapView.ColumnHeaders | src/components/SeatMap.tsx:55-57 | exactly `cols` one-letter headers, the i-th being code point 65 + i |
| SeatMapView.HeadersMatchGenerator | src/components/SeatMap.tsx:55-57 | the headers of the generated map are the generator's column letters |
| SeatMapView.VisitOrder | src/components/SeatMap.tsx:101-107 | rows × cols positions; position k is row k / cols + 1 and header k mod cols, so rows 1 to `rows` are visited in order with every header in each |
| SeatMapView.VisitRowsAppend | src/components/SeatMap.tsx:101-107 | appending one more row of headers keeps the row-major formula |
| SeatMapView.DivModUnique | src/components/SeatMap.tsx:101-107 | a position has one row and one column |
| SeatMapView.SeatMapComponent.constructor | src/components/SeatMap.tsx:11 | no seat is hovered at first |
| SeatMapView.SeatMapComponent.MouseEnter | src/components/SeatMap.tsx:46 | the entered seat becomes the hovered one |
| SeatMapView.SeatMapComponent.MouseLeave | src/components/SeatMap.tsx:47 | no seat is hovered |
| SeatMapView.SeatMapComponent.RenderSeat | src/components/SeatMap.tsx:13-52 | nothing iff no seat is at the position; otherwise the id, the appearance by `Look`, the base classes followed by that appearance's suffix, and the click of `ClickSeat` |
| MockSeatMap.ColumnLetter | src/data/mockSeatMap.ts:13 | one letter from A to F |
| MockSeatMap.MockSeats | src/data/mockSeatMap.ts:4-43 | 30 × 6 seats in row-major order, so no (row, column) twice; rows 1-3 premium at 45, rows 10-12 extra legroom at 25, others standard with no price; unavailable iff the seat's draw is below 0.2, never selected |
| MockSeatMap.GenerateMockSeatMap | src/data/mockSeatMap.ts:4-43 | the nested loop yields a 30 × 6 map whose seats are exactly `MockSeats` |
| MockSeatMap.MockSeatsCover | src/data/mockSeatMap.ts:11-13 | row r, column c sits at position (r - 1) × 6 + c, so every grid position is present |
| Helpers.DrawIndexInRange | src/utils/helpers.ts:19-23 | every drawn index lies within its alphabet |
| Helpers.CharAt | src/utils/helpers.ts:19-23 | `charAt` gives one character inside the string and none outside |
| Helpers.DrawnChar | src/utils/helpers.ts:18-24 | the first two draws give upper-case letters, the others digits |
| Helpers.AlphabetsInRange | src/utils/helpers.ts:12-13 | the alphabets are the 26 letters from A and the 10 digits from 0 |
| Helpers.ReferenceFromDraws | src/utils/helpers.ts:11-27 | six characters: two upper-case letters, then four digits |
| Helpers.GenerateBookingNumber | src/utils/helpers.ts:11-27 | the two loops build exactly `ReferenceFromDraws`, so the reference has the two-letters-four-digits shape |
| Helpers.DrawFor | src/utils/helpers.ts:19-23 | the draw (i + 0.5) / n picks index i |
| Helpers.DrawPickingPicks | src/utils/helpers.ts:19-23 | the draw chosen for a character of a reference is a valid draw and picks that character |
| Helpers.PickFrom | src/utils/helpers.ts:19-23 | a character of an alphabet is picked by its centred draw |
| Helpers.EveryReferenceReachable | src/utils/helpers.ts:11-27 | every string of the reference shape is produced by some draws, so the shape is exactly the generator's range |
| FlightCard.FormatClassLabel | src/components/FlightCard.tsx:19-27 | the four fare-class literals get "Economy", "Premium Economy", "Business", "First Class"; any other string comes back unchanged |
| FlightCard.ClassLabelsDistinct | src/components/FlightCard.tsx:19-27 | each fare class gets a label different from its literal and from every other class's |
| FlightCard.StopsLabel | src/components/FlightCard.tsx:58 | "Direct" iff there is at most one segment; otherwise a decimal number followed by " stop(s)" |
| FlightCard.StopsLabelCountsStops | src/components/FlightCard.tsx:58 | with two or more segments, the label's number is one less than the segment count |
| FlightCard.DisplayedSegment | src/components/FlightCard.tsx:13 | the displayed segment is the offer's first |
| FlightCard.SelectPath | src/components/FlightCard.tsx:15-17 | "/flight/" followed by the offer's id |
| Text.FilterFacts | src/pages/MyBookings.tsx:21-24 | `filter` keeps order, keeps exactly the matching elements as often as they occur, and returns everything when everything matches |
| Text.FilterAppend | src/pages/PassengerInfo.tsx:93 | filtering a concatenation filters each part |
| Text.FilterCount | src/pages/PassengerInfo.tsx:93 | a kept element occurs as often as in the input, a dropped one not at all |
| Text.FilterMembership | src/pages/MyBookings.tsx:21-24 | an element is kept iff it is in the input and matches |
| Text.FilterAll | src/pages/MyBookings.tsx:22-23 | a filter that rejects nothing returns its input |
| Text.FilterIsSubsequence | src/pages/MyBookings.tsx:21-24 | `filter` returns a subsequence of its input |
| Text.FindIndex | src/components/BookingSteps.tsx:17-19 | `findIndex` gives the least index that satisfies the test, or -1 when none does |
| Text.RemoveWhitespace | src/pages/Payment.tsx:38-102 | `replace(/\s/g, '')` leaves no whitespace |
| Text.KeepDigits | src/pages/Payment.tsx:102 | `replace(/\D/g, '')` leaves only digits |
| Text.KeepDigitsAfterRemoveWhitespace | src/pages/Payment.tsx:102 | deleting whitespace before deleting non-digits changes nothing |
| Text.DigitsKeepAll | src/pages/Payment.tsx:38-102 | a digit string is unchanged by both replacements |
| Text.ToLower | src/pages/MyBookings.tsx:22-23 | lower-casing keeps the length and maps each character |
| Text.ContainsItself | src/pages/MyBookings.tsx:22 | every string includes itself |
| Text.ContainsAnchored | src/components/BookingSteps.tsx:18 | in a string whose only separator is its first character, a pattern starting with it occurs iff it is a prefix |
| Text.DecimalRoundTrip | src/components/FlightCard.tsx:58 | reading back a printed number gives the number |
| Text.PrefixedDecimalInjective | src/pages/PassengerInfo.tsx:64 | `passenger${i}` identifies i |
| Text.DecimalSuffixInjective | src/components/SeatMap.tsx:14 | `${row}${col}` with a one-letter column identifies both |
| Text.FromCharCode | src/components/SeatMap.tsx:56 | one character with the given code |
| Text.SliceLast | src/pages/Payment.tsx:89 | `slice(-4)` gives the last four characters, or the whole of a shorter string |

## Left out

- Money is modelled as mathematical reals. The source multiplies IEEE doubles
  by `0.12`, so `PriceFor` is not bit-exact with the browser.
- Strings are sequences of Unicode scalar values, whereas JavaScript's `length`,
  `slice(-4)` and `charAt` count UTF-16 code units. The two differ only for
  characters outside the Basic Multilingual Plane, for example an emoji in a
  card input with fewer than four digits, which reaches the `slice(-4)` of the
  payment descriptor unformatted.
- `toLowerCase` is modelled on the ASCII letters only. Other characters are
  left as they are, with no Unicode case mapping.
- `generateUniqueId` (src/utils/helpers.ts:4-6) is not modelled. Passenger
  ids are a parameter of `InitialPassengers`.
- Every `Math.random()` draw is a parameter, as an idealised real in [0, 1).
  This covers the booking reference and seat availability. Nothing about
  their distribution is modelled.
- The current date (`new Date().toISOString()`) is a parameter of `HandleSubmit`.
- `window.innerWidth < 768` is the parameter `narrowViewport` of `HandleSearch`.
- These are left out as browser input and output: rendering, CSS classes other
  than the seat appearances, icons, `navigate(...)`, and
  `getElementById`/`scrollIntoView` after a failed passenger submit
  (src/pages/PassengerInfo.tsx:107-112).
- The two-second simulated delay in the payment submit (src/pages/Payment.tsx:70)
  is left out. `HandleSubmit` runs its steps without awaiting, and `isLoading`
  is never reset, as in the source.
- The `maxLength` attributes of the card, expiry and CVV inputs are not
  modelled: they are the browser's truncation of what is typed.
- React's lifecycle is not modelled (effect re-runs, render timing, batching
  of state updates). `SeedPassengers` is one run of the effect.
- Payment.PaymentPage.HandleSubmit and the other handlers of a rendered page are
  only reachable once the page's guard lets the form show. `HandleSubmit`
  therefore requires a chosen flight and passengers, and the per-passenger
  handlers require a valid index. The guard itself is `Payment.View` and
  `PassengerInfo.View`.
- Error records are keyed by datatypes, `PaymentField` and `ErrorKey`, rather
  than by property-name strings. `FieldName` and `KeyName` give the names, and
  `FieldNamesDistinct` and `KeyNamesDistinct` show that the two keyings agree.
  Key insertion order, which `Object.keys` would expose, is not modelled.
- PassengerInfo.PassengerMessages states only length and emptiness in its own
  contract. The order and membership of the messages are the lemmas
  `MessagesFollowFields`, `MissingFieldsInOrder` and `MessageMembership`.
- The regular expression `/\d{4,16}/g` in `formatCardNumber` is modelled only
  on the digit string it is applied to (`FirstDigitRun`), which is all the
  source ever gives it.
- SeatMapView.ColumnHeaders requires fewer columns than would reach the
  surrogate code points; `String.fromCharCode` there is not modelled.
- FlightCard.DisplayedSegment requires a non-empty segment list. The source
  indexes `segments[0]` unguarded, and an empty list would give `undefined`.
- SeatMapView.SeatMapComponent.RenderSeat appends the suffix chosen by `Look`.
  The source's if/else chain is stated once, in `Look`, instead of inline.
- The search results page and the formatting utilities are not part of this
  model, nor are the home page, the not-found page and the destinations data.
