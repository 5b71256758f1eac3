# Restaurant booking: a verified model of the reservation store and the booking page

The system is a small restaurant-reservation web application. An Express
backend keeps every reservation in one in-memory array and answers four
routes:
- an availability query, for one slot or for a whole date;
- creating a booking;
- listing all bookings;
- deleting a booking by id.

A Next.js page lets a guest pick a date, choose one of fifteen hourly slots,
enter a party size, a name and a phone number, and submit.

The Dafny project models the logic of both pieces, with the HTTP and React
shells removed:

- `booking_store.dfy`, module `BookingStore`.
  - The class `Store` holds the `bookings` array as a `seq<Booking>`.
  - `Create` and `Delete` are methods that replace that sequence, the way `push` and `splice` change the array.
  - The availability query and the listing are functions that read it.
  - Each handler answers with `Result`: success, or one of `Validation`, `Conflict`, `NotFound` and `MissingDate`. The first two are the two 400 answers of the create route, the third is the 404 of the delete route, and the last is the 400 of the availability route.
  - The invariant `NoDoubleBooking` says no two stored bookings hold the same (date, time) pair. It is the class's `Valid()`, and both state-changing methods preserve it.
- `book_page.dfy`, module `BookPage`.
  - `GenerateTimeSlots` is the loop that builds the slot grid. It is proved against `SlotLabel(i)`, a closed form for label i.
  - The class `BookingForm` holds the page's state hooks. Its methods are the date-change reset, the slot-click handler and `validateForm`.
  - `CollectValidationErrors` is the body of `validateForm`. It fills the error dictionary field by field.

Conventions of the model:
- An absent query parameter, an absent string field of the request body and a React state still at `null` are all written `""`. The code only tests them for truthiness, and both are falsy.
- The backend's `guests` is an `int`, and only 0 is falsy. An absent `guests` is `undefined`, which is falsy too; the model writes it as 0, so it also gives `Validation`. A negative party size passes the backend's field check, as it does in the code.
- The page's `guestCount` is an `Option<int>`, with `None` for an empty input.
- Ids follow the code: a new booking gets the current length plus one. After a delete, this can hand out an id that a stored booking still carries. `ExampleIdReuse` shows this happening. `Delete` removes only the first booking with the id, and `ExampleDoubleDelete` shows a repeated id being deleted twice.
- The slot grid follows the code too. The period flips when the hour wraps from 12 to 1, not between 11 and 12. `SlotGridShape` gives the hour and period of each index, and `Label` renders them as the decimal text of the hour (`DecimalText`), then ":00 ", then the period. The grid therefore reads 12:00 AM, 1:00 PM, 2:00 PM, …, 11:00 PM, 12:00 PM, 1:00 AM, 2:00 AM.

## Model

| member | source | states |
|---|---|---|
| BookingStore.IsBooked | src/app/backend/index.js:33-35 | the `some` scan is true exactly when some stored booking holds both the date and the time |
| BookingStore.UnavailableSlots | src/app/backend/index.js:40-42 | the `filter`/`map` result is no longer than the store, and a time is in it exactly when a stored booking holds that date and time |
| BookingStore.FindIndex | src/app/backend/index.js:86 | `findIndex` gives -1 exactly when no booking carries the id; otherwise it gives an index carrying the id with no earlier one carrying it |
| BookingStore.RemoveAt | src/app/backend/index.js:92 | `splice(i, 1)` shortens the array by one, keeps the elements before i and shifts the later ones down by one |
| BookingStore.Store.constructor | src/app/backend/index.js:10 | the store starts empty and satisfies the no-double-booking invariant |
| BookingStore.Store.CheckAvailability | src/app/backend/index.js:24-46 | an error exactly when the date is missing; with a time, `available` holds exactly when no stored booking has that date and time; without a time, the stored times for the date, in storage order, and a time is listed exactly when it is not free; under the no-double-booking invariant no time is listed twice |
| BookingStore.Store.List | src/app/backend/index.js:78-80 | the listing is every stored booking, in insertion order |
| BookingStore.Store.Create | src/app/backend/index.js:49-75 | a falsy field gives `Validation`; a slot already held gives `Conflict`; both leave the store unchanged; otherwise exactly one booking is appended, carrying the given fields and id old length + 1, with earlier bookings unchanged; the no-double-booking invariant is preserved |
| BookingStore.Store.Delete | src/app/backend/index.js:83-94 | `NotFound` exactly when no booking carries the id, with the store unchanged; otherwise the first booking with the id is removed and the rest keep their order; the invariant is preserved |
| BookingStore.FreshSlotKeepsNoDoubleBooking | src/app/backend/index.js:56-72 | appending a booking for a slot no stored booking holds keeps the no-double-booking invariant |
| BookingStore.RemoveKeepsNoDoubleBooking | src/app/backend/index.js:92 | removing any one booking keeps the no-double-booking invariant |
| BookingStore.UnavailableSlotsAppend | src/app/backend/index.js:40-42 | the date query over a concatenation is the query over the first part followed by the query over the second, so the answer follows storage order |
| BookingStore.CreatedSlotIsUnavailable | src/app/backend/index.js:40-44 | after a booking is appended, the date query for its date gains its time at the end, the query for other dates is unchanged, and the slot query for its slot finds it booked |
| BookingStore.FreedSlotIsNotBooked | src/app/backend/index.js:56-62 | under the invariant, once the booking that held a slot is removed, no booking holds that slot, so a create for it with truthy fields succeeds |
| BookingStore.UnavailableSlotsDistinct | src/app/backend/index.js:40-42 | under the invariant, the date query never lists the same time twice |
| BookPage.Digit | src/app/frontend/book/page.jsx:36 | a digit below ten is rendered as the ASCII character with that value |
| BookPage.DecimalText | src/app/frontend/book/page.jsx:36 | the template literal renders a number with at least one character |
| BookPage.DecimalRoundTrip | src/app/frontend/book/page.jsx:36 | reading back the rendered decimal text of n gives n |
| BookPage.DecimalTextInjective | src/app/frontend/book/page.jsx:36 | distinct hours render as distinct texts |
| BookPage.SlotHour | src/app/frontend/book/page.jsx:32-41 | the hour of every label is between 1 and 12 |
| BookPage.SlotPeriod | src/app/frontend/book/page.jsx:33-43 | the period of every label is "AM" or "PM" |
| BookPage.GenerateTimeSlots | src/app/frontend/book/page.jsx:30-46 | the loop yields exactly 15 labels, label i equals the closed form `SlotLabel(i)`, and each has the form "<h>:00 AM" or "<h>:00 PM" with h in 1..12 |
| BookPage.SlotStep | src/app/frontend/book/page.jsx:39-43 | one loop turn either raises the hour by one and keeps the period, or wraps the hour from 13 to 1 and flips the period |
| BookPage.SlotLabelWellFormed | src/app/frontend/book/page.jsx:35-37 | every label has the form "<h>:00 AM" or "<h>:00 PM" with h in 1..12 |
| BookPage.SlotGridShape | src/app/frontend/book/page.jsx:32-43 | label i shows hour 12 at index 0, i for 1..12 and i - 12 for 13..14; its period is AM at index 0, PM for 1..12 and AM for 13..14 |
| BookPage.LabelInjective | src/app/frontend/book/page.jsx:36 | two rendered labels are equal only when their hours and periods are equal |
| BookPage.SlotLabelsDistinct | src/app/frontend/book/page.jsx:35-44 | the fifteen labels of the grid are pairwise distinct |
| BookPage.SkipLeading | src/app/frontend/book/page.jsx:79 | the start of the trimmed text: everything skipped is whitespace, and the character it stops at is not |
| BookPage.SkipTrailing | src/app/frontend/book/page.jsx:79 | the end of the trimmed text: everything dropped is whitespace, and the character before it is not |
| BookPage.Trim | src/app/frontend/book/page.jsx:79 | `trim` gives a slice s[a..b] of the input such that s[..a] and s[b..] are all whitespace and the slice neither starts nor ends with whitespace; so exactly the leading and trailing whitespace is removed |
| BookPage.TrimEmptyIffBlank | src/app/frontend/book/page.jsx:79 | the trimmed name is empty exactly when the name is all whitespace, the empty name included |
| BookPage.MatchesDigits | src/app/frontend/book/page.jsx:80 | `^\d{10}$` accepts a text exactly when it has 10 characters and each is an ASCII digit |
| BookPage.CollectValidationErrors | src/app/frontend/book/page.jsx:73-81 | the error dictionary has a date key exactly when no date is chosen, a slot key exactly when no slot is chosen, a guest key exactly when the count is empty or ≤ 0, a name key exactly when the name is blank, and a contact key exactly when the contact is not ten digits; each key carries its own message |
| BookPage.BookingForm.constructor | src/app/frontend/book/page.jsx:10-17 | every state hook starts at its initial value |
| BookPage.BookingForm.HandleDateChange | src/app/frontend/book/page.jsx:48-52 | choosing a date records it, sets the slot list to the fifteen generated labels and clears the selected slot |
| BookPage.BookingForm.ReceiveUnavailableSlots | src/app/frontend/book/page.jsx:58 | the answer's list of unavailable slots is stored, or the empty list when the answer has none |
| BookPage.BookingForm.HandleSlotClick | src/app/frontend/book/page.jsx:64-70 | a slot listed as unavailable never becomes selected and the selection stays as it was; any other slot becomes the selection |
| BookPage.BookingForm.ValidateForm | src/app/frontend/book/page.jsx:72-85 | the stored errors hold exactly the failing fields, each with its message, and the result is true exactly when no error was recorded |

## Left out

- Express start-up, CORS, body parsing and `app.listen` (src/app/backend/index.js:1-19, 96-99) are process plumbing.
- HTTP status codes and JSON response bodies are replaced by the `Result` and `Availability` datatypes.
- `parseInt` of the delete route's path parameter (src/app/backend/index.js:86) is not modelled; `Store.Delete` takes an integer id.
- Query parameters and body fields that are not strings (arrays, objects) are not modelled. Every field is a string, except `guests`, which is an integer.
- Full JavaScript coercion is not modelled. The page actually sends `guestCount` as the string typed into the number input, and compares that string with `<= 0`. The model takes the count as an optional integer, so texts such as "1.5" or "-0" are outside it.
- BookPage.Trim: strips only a fixed set of ten white-space characters (`IsWhitespace`), while `String.prototype.trim` strips every Unicode white-space and line-terminator character; a name made only of other Unicode space separators is outside the model.
- Concurrency is not modelled: Node runs each handler to completion on one thread.
- The axios requests, `alert`, `router.push`, `handleSubmit`'s network round trip and all JSX rendering (src/app/frontend/book/page.jsx:54-61, 87-108, 110-198) are network and rendering code. The answer to the availability request enters the model only through `BookingForm.ReceiveUnavailableSlots`.
- The minimum and maximum selectable dates (src/app/frontend/book/page.jsx:18-28) depend on the wall clock.
- src/app/frontend/all-bookings/page.jsx, src/app/frontend/summary/page.jsx and src/app/page.js are not part of this model; they render, navigate and fetch.
- No property says ids are unique or increasing, because the code guarantees neither: ids are `bookings.length + 1` (src/app/backend/index.js:65), so `ExampleIdReuse` reaches two stored bookings with the same id, and `ExampleDoubleDelete` deletes that id twice.
