# Sepilok wildlife visitor pass: the booking session

A Dafny model of the booking widget's core. A visitor picks one of three
attractions, a date, a timeslot and the numbers of adults and children. The
widget derives a price from the catalog and, on submission, posts a snapshot to
a spreadsheet endpoint. Whatever the settled outcome of that post, it then opens a
WhatsApp deep link whose text holds the same booking facts.

Modules, one per source file or concern:

- `Types` (types.ts): the closed identifier type `AttractionType`, `Prices`
  (exactly an adult and a child price), `Attraction` (only `externalUrl` is an
  `Option`), and `BookingDetails`, whose `attractionId` can only be one of the
  three identifiers.
- `Constants` (constants.ts): the three-entry catalog `Attractions`, the four
  `TimeSlots`, the WhatsApp number and the webhook URL. It also holds `Find`,
  the model of `Array.prototype.find` by id.
- `Text`: JavaScript's rendering of an integer inside a template literal
  (`NumberToString`), and line joining and splitting. Reading digits back undoes
  the rendering of non-negative integers (nothing reads back a negative
  number), and splitting undoes joining for lines without a newline.
- `Booking` (App.tsx, pure part): the record invariant (at least one adult,
  no negative child count, a catalog timeslot), the initial record, the
  resolved attraction, the derived total, and `CountUpdate`, the updater that
  `updateCount` passes to `setBooking`.
- `Submission` (App.tsx, `handleBookingSubmit`): the log payload, the
  nine-line confirmation text, and its reader `ReadMessage`. It also holds the
  link and the effect trace of one submission, `SubmitEffects`.
- `Session` (App.tsx, component state): class `BookingSession` with fields
  `booking`, `isSubmitting` and `effects`. Each event handler is a method.

The two outbound effects are abstract events in the `effects` trace:
`LogAttempted(request, outcome)`, where `outcome` is a parameter giving what the
network did, and `LinkOpened(url, target)`. The trace also records the catch
block's `console.error` call (`ErrorReported`) and each change of the
submitting flag (`SubmittingSet`). `encodeURIComponent` is the parameter
`encode` of `Submit`. The clock's readings (today's date for the initial
record, the payload timestamp) are parameters too.

The message labels in App.tsx:90-94 begin with characters that look like
emoji mis-decoded as Windows-1252, for example U+00F0 U+0178 U+0152 U+00BF for
the attraction line. The model keeps these characters exactly as the source
text has them. Nothing in the proofs depends on them, except that they contain
no newline.

Three facts about the code that shape the model:

- Decrementing adults by 100 gives `max(1, old - 100)`, so it leaves exactly
  one adult only when there were at most 101 (`AdultLargeDecrement`). A larger
  party keeps `old - 100` adults.
- types.ts:22 declares a required `visitorName`, but the initial record at
  App.tsx:22-28 omits it, and nothing in App.tsx sets, reads or validates it.
  The model's record has no such field, and submission has no name check.
- The attraction lookup at App.tsx:36 cannot miss, because every identifier
  has a catalog entry (`FindAlwaysSucceeds`). So the price lookup has no
  failure path, and the model needs none.

## Model

The members that compute what the component computes have no contract of
their own. Their properties are stated by the lemmas in the table:

- `Booking.TotalPrice` (App.tsx:40-43), the `totalPrice` value:
  `TotalPriceByAttraction`, `TotalPriceNonNegative`, `TotalPriceScenarios`.
- `Submission.Payload` (App.tsx:66-75), the logged `formData`, and
  `Submission.MessageLines` and `Submission.Message` (App.tsx:88-96), the
  confirmation text: `MessageLinesRead`, `MessageMatchesPayload`,
  `Session.SessionMessageReadsBack`.
- `Text.NumberToString` (App.tsx:93-94), which on the non-negative counts and
  totals of a valid record is `NatToString`: `NatToString`,
  `ParseNatToString`, `ReadVisitorsOf`, `ReadTotalOf`.
- `Text.JoinLines` (App.tsx:88-96), the newlines of the template literal:
  `SplitJoinLines`.
- `Submission.LogRequestFor` (App.tsx:78-83), `Submission.WhatsAppLink`
  (App.tsx:98-99) and `Submission.SubmitEffects` (App.tsx:63-101), one
  submission's effects: `SubmitEffectsOrder`, `SubmitFlagSpan`,
  `SubmitIndependentOfLog`, and `BookingSession.Submit`, whose trace grows by
  exactly `SubmitEffects`.

| member | source | states |
|---|---|---|
| `Constants.Find` | App.tsx:35-38 | The lookup finds an entry exactly when some catalog entry has the id. The entry it returns has that id and is the first such entry. |
| `Constants.CatalogIds` | constants.ts:4-29 | The catalog has exactly three entries: ORANGUTAN, SUNBEAR and COMBO, each exactly once. |
| `Constants.FindAlwaysSucceeds` | App.tsx:36 | Looking up any identifier in the catalog succeeds and returns the entry with that id, so the non-null assertion is safe. |
| `Constants.CatalogPrices` | constants.ts:11-27 | Every catalog price is non-negative. ORANGUTAN and SUNBEAR cost 30/15 and COMBO costs 50/25. |
| `Constants.TimeSlotsDistinct` | constants.ts:31-36 | There are exactly four distinct timeslots, and the first is `09:00 AM`. |
| `Booking.InitialBooking` | App.tsx:22-28 | The record the component starts from satisfies the invariant: adults >= 1, children >= 0, and the timeslot is in the catalog. |
| `Booking.InitialBookingDefaults` | App.tsx:22-28 | The defaults are ORANGUTAN, today's date, `09:00 AM`, one adult and no children. |
| `Booking.SelectedAttraction` | App.tsx:35-38 | The resolved attraction has the booked id and is a catalog entry. |
| `Booking.SelectedEntry` | constants.ts:4-29 | The resolved attraction is the catalog entry at that identifier's position. |
| `Booking.SelectedPrices` | constants.ts:11-27 | The resolved prices are 50/25 for COMBO and 30/15 for the other two. |
| `Booking.SelectedNames` | constants.ts:7-23 | The resolved display names are the catalog's three names. |
| `Booking.TotalPriceByAttraction` | App.tsx:40-43 | The total equals adults times the adult price plus children times the child price, with the prices the catalog gives each id. |
| `Booking.TotalPriceNonNegative` | App.tsx:40-43 | With non-negative counts the total is non-negative. |
| `Booking.TotalPriceScenarios` | App.tsx:40-43 | ORANGUTAN with 2 adults and 1 child costs 75. COMBO with 1 adult and 0 children costs 50. |
| `Booking.CountUpdate` | App.tsx:104-109 | The named counter becomes old + delta when that reaches its floor (1 for adults, 0 for children), otherwise the floor. The attraction, date, timeslot and the other counter are unchanged. |
| `Booking.CountUpdateKeepsInvariant` | App.tsx:104-109 | A counter update keeps the record invariant. |
| `Booking.AdultDoubleDecrement` | App.tsx:107 | Two decrements from one adult leave one adult. |
| `Booking.AdultLargeDecrement` | App.tsx:107 | A decrement by 100 leaves exactly one adult if and only if there were at most 101. |
| `Booking.ChildLargeDecrement` | App.tsx:107 | A decrement by 100 leaves no children if and only if there were at most 100. |
| `Booking.CountUpdateUnbounded` | App.tsx:107 | There is no upper bound: from a valid record, any increment is applied in full. |
| `Text.NatToString` | App.tsx:93-94 | An interpolated count is a non-empty string of decimal digits with no leading zero. |
| `Text.ParseNatToString` | App.tsx:93-94 | Reading back the digits of an interpolated count gives the count. |
| `Text.SplitJoinLines` | App.tsx:88-96 | Cutting the multi-line text at newlines gives back its lines, provided no line contains a newline. |
| `Submission.ReadVisitorsOf` | App.tsx:93 | The visitors line gives back both counts. |
| `Submission.ReadTotalOf` | App.tsx:94 | The total line gives back the total. |
| `Submission.MessageLinesRead` | App.tsx:88-96 | Every line of the confirmation text gives back its field: the attraction name, date, timeslot, adults, children and total of the payload snapshot. |
| `Submission.MessageMatchesPayload` | App.tsx:66-96 | For a record that satisfies the invariant and whose date holds no newline, reading the confirmation text back gives exactly the payload's attraction name, date, timeslot, adults, children and total. The payload's status is `Pending WhatsApp Confirmation`. |
| `Submission.SubmitEffectsOrder` | App.tsx:63-101 | One submission makes exactly one log attempt, as its second step, with the snapshot payload. It then opens exactly one link, the WhatsApp link for the encoded message, whatever the log outcome. An error is reported exactly when the log call failed. |
| `Submission.SubmitFlagSpan` | App.tsx:63-101 | Every outbound effect of a submission happens while the submitting flag is set, and the flag is clear at the end. |
| `Submission.SubmitIndependentOfLog` | App.tsx:77-99 | Apart from the log call and its error report, the effects are the same for every log outcome: flag set, the same link opened, flag cleared. |
| `Session.BookingSession.constructor` | App.tsx:22-33 | Given a newline-free date for today, the session starts valid, with the initial record, the flag clear and no effects. |
| `Session.BookingSession.SelectAttraction` | App.tsx:59-61 | Only the attraction id changes. The invariant holds and no effect occurs. |
| `Session.BookingSession.SetDate` | App.tsx:219-224 | Only the date changes, and it is not re-validated beyond being a date-input value without a newline. The invariant holds and no effect occurs. |
| `Session.BookingSession.SetTimeSlot` | App.tsx:243-247 | Only the timeslot changes, to one of the catalog's slots. The invariant holds and no effect occurs. |
| `Session.BookingSession.UpdateCount` | App.tsx:104-109 | The record becomes `CountUpdate` of the old record. The invariant holds and no effect occurs. |
| `Session.BookingSession.Submit` | App.tsx:63-102 | The record is unchanged, the flag is clear again, and the trace grows by exactly the submission's effects. The link is opened whatever the settled outcome of the log call. |
| `Session.SessionMessageReadsBack` | App.tsx:63-99 | Every record a valid session holds, which includes the snapshot each submission takes, yields a confirmation text that reads back as exactly the payload logged with it, for any timestamp. |

## Left out

- The fact and tip provider (services/geminiService.ts), the effect that calls it, and the `wildlifeFact`, `travelTip` and `loadingFact` state (App.tsx:30-32, 45-57). These are display-only calls to a third-party text service, run concurrently.
- The transport of the log call: `fetch` and `JSON.stringify` (App.tsx:78-83). The request is recorded as data (URL, method, mode, content type, payload record). These are the arguments of the call, not what goes on the wire: in `no-cors` mode the browser drops the `application/json` header and sends `text/plain`. The call's outcome is an input, and the byte serialisation is not modelled.
- `window.open` (App.tsx:99) is the `LinkOpened` event. Browser behaviour, such as a blocked pop-up, is not modelled.
- `encodeURIComponent` (App.tsx:98) is an arbitrary function parameter. Its URIError on lone surrogates is not modelled.
- Clock readings are parameters: today's UTC date (App.tsx:24, from `toISOString()`, which at UTC+8 is the previous day before 08:00 local time), the payload timestamp (App.tsx:67), and the date input's `min` (App.tsx:222), which is a UI attribute that is never re-checked.
- Session.BookingSession.Submit: covers only log calls that settle. The link waits for the awaited `fetch` (App.tsx:78), which has no timeout, so a slow call delays the link, and a call that never settles never opens it and leaves `isSubmitting` true.
- Asynchrony: `Submit` is one atomic step, so no other event runs during the awaited log call. The buttons' `disabled={isSubmitting}` guard is therefore not modelled, and the flag is clear between events. The handler's snapshot of `booking` and `totalPrice` is the record at the start of `Submit`.
- Session.BookingSession.SetDate: requires a date without a newline. The date input (App.tsx:219-224) only yields `yyyy-mm-dd` or the empty string; the updater itself would accept any string.
- Session.BookingSession.constructor: requires a date without a newline for today's UTC date. App.tsx:24 takes it from `toISOString().split('T')[0]`, which is `yyyy-mm-dd`.
- Session.BookingSession.SetTimeSlot: requires one of the catalog's slots. Its only caller (App.tsx:243-247) maps over `TIME_SLOTS`; the updater itself would accept any string.
- JavaScript numbers are modelled as unbounded integers. Fractions, NaN and the 2^53 precision limit are not modelled, nor are integers of 1e21 and above, which JavaScript writes in exponent form. `NumberToString` covers integer values only; no count or total reaches such a value by clicking.
- All JSX, styling, images and locale date formatting (App.tsx:111-458).
- `visitorName` (types.ts:22), which App.tsx never uses.
