# Eliora registration: a Dafny model of the three pages

Eliora is a Next.js application with a Convex backend that collects
registrations for an event. This project models the logic of its three
client pages:

- **Participants admin view** (`app/participants/page.jsx`). An admin adds
  filters from a select. Each filter holds a value. At render time, a chain
  of `if`s narrows the loaded registrations one filter at a time. The
  filtered list is then exported to a spreadsheet. Module `Participants`:
  - the chain is the method `ApplyFilters`, built from `FilterStep`;
  - `ApplyFilters` is proved equal to `Select`, which keeps the records
    passing every engaged filter;
  - the panel state (`activeFilters` and `filters`) is the class
    `FilterPanel`.
- **Parts admin view** (`app/parts/page.jsx`). A name search and two
  selects filter the list. Clicking a column header sorts it through a
  comparator. An export projects each participant to spreadsheet columns.
  An admin session lasts fifteen minutes and lives in local storage.
  Module `Parts`:
  - the sort is a stable insertion sort by the page's comparator;
  - `JsValue` models JavaScript's `<` on strings with strings, numbers
    with numbers, and anything with `undefined`;
  - the page state is the class `PartsPage`.
- **Registration form** (`app/register/page.jsx`). Fields are validated
  with the page's exact messages. The payment-proof file is checked for
  type and size. Submission is gated by validation, then uploads the
  proof, inserts the record and navigates. Module `Register`:
  - the form is the class `RegistrationForm`;
  - the backend answers are parameters;
  - the backend requests and navigations are recorded, in order, in
    `effects`.

Shared modules:

- `Text` models the JavaScript string built-ins the pages use: `trim`, the
  `\s` class, `toLowerCase`, `includes`, and `<` on strings.
- `Sequences` defines order-preserving subsequences.
- `Records` holds the stored registration, as `convex/schema.js` declares it.
- `Wrappers` holds `Option`.

One property of the source shows up as a lemma rather than as a finding.
The participants page filters on `travelWithUs`, but the schema declares
no such property. So once that filter holds a value, no stored record
passes it (`Participants.TravelFilterEmptiesStoredList`).

## Model

| member | source | states |
|---|---|---|
| Text.TrimStartSpec | app/register/page.jsx:36 | `trimStart` keeps a suffix that is empty or starts with a non-space, and everything it drops is white space |
| Text.TrimEndSpec | app/register/page.jsx:43 | `trimEnd` keeps a prefix that is empty or ends with a non-space, and everything it drops is white space |
| Text.TrimEmptyIffBlank | app/register/page.jsx:36 | `s.trim()` is empty exactly when `s` holds nothing but white space, so `!s.trim()` is the blank test |
| Text.Lower | app/participants/page.jsx:60-61 | `toLowerCase` keeps the length, leaves no upper-case letter, and changes no character that was not one |
| Text.LowerIdempotent | app/participants/page.jsx:60-61 | lowering an already lowered string changes nothing |
| Text.IncludesEmpty | app/participants/page.jsx:60 | `includes("")` holds for every string |
| Text.LexLessIrreflexive | app/parts/page.jsx:113 | no string is `<` itself |
| Text.LexLessAsymmetric | app/parts/page.jsx:113-114 | `a < b` and `b < a` never both hold for strings |
| Text.LexLessTransitive | app/parts/page.jsx:113-114 | string `<` is transitive |
| Text.LexLessTotal | app/parts/page.jsx:113-115 | of two different strings one is `<` the other, so the comparator returns 0 only for equal strings |
| Sequences.SubseqReflexive | app/participants/page.jsx:55 | a list is a subsequence of itself, as `filteredData` starts as the loaded list |
| Sequences.SubseqElements | app/participants/page.jsx:58 | a subsequence is no longer than its list and holds only its elements |
| Sequences.SubseqMultiset | app/parts/page.jsx:103 | a filtered list holds each element at most as often as the original |
| Participants.Reset | app/participants/page.jsx:187-190 | cancelling a filter clears its value (an empty range for the two date keys) and leaves every other key's value as it was |
| Participants.ApplyFilters | app/participants/page.jsx:54-94 | the eight-step filter chain yields exactly `Select`: the loaded records that pass every filter whose guard holds, in order |
| Participants.FilterStep | app/participants/page.jsx:57-94 | one `if` of the chain: when the key is active and has a value, the list is filtered by its predicate too, otherwise it is unchanged |
| Participants.ChainCoversEngagedKeys | app/participants/page.jsx:57-94 | the keys the chain applies, one `if` per key, are exactly the active keys with a value |
| Participants.KeepNoConditions | app/participants/page.jsx:55 | filtering with no predicate returns the list unchanged |
| Participants.KeepMembers | app/participants/page.jsx:58 | a record survives filtering exactly when it was in the list and passes every predicate, and then as many times as it occurs in the list |
| Participants.KeepSubseq | app/participants/page.jsx:58 | filtering keeps a subsequence: order is preserved and nothing is added |
| Participants.KeepCompose | app/participants/page.jsx:57-94 | filtering by one set of predicates and then another equals filtering by their union once |
| Participants.KeepAllPass | app/participants/page.jsx:58 | a filter every record passes changes nothing |
| Participants.KeepNonePass | app/participants/page.jsx:76 | a filter no record passes leaves the empty list |
| Participants.SelectIsSubsequence | app/participants/page.jsx:54-94 | the shown list is an order-preserving subsequence of the loaded list and no longer than it |
| Participants.SelectWithoutFilters | app/participants/page.jsx:54-55 | with no filter added, the page shows the loaded list unchanged |
| Participants.SelectNarrows | app/participants/page.jsx:163-166 | adding a filter key never brings back a record: the new list is a subsequence of the old |
| Participants.SelectMembership | app/participants/page.jsx:57-94 | a record is shown iff it is loaded and meets each of the eight rules whose guard holds (case-insensitive name/email search, exact gender, status, travel and payment, case-insensitive parish, birth date between the two chosen days, creation instant between the two chosen midnights) |
| Participants.PassesEngagedIff | app/participants/page.jsx:57-94 | passing every engaged predicate is the same as meeting the rule table |
| Participants.EmptySearchKeepsAll | app/participants/page.jsx:57-63 | the search filter has no value guard, and with an empty term it keeps every record |
| Participants.UnsetFilterHasNoEffect | app/participants/page.jsx:64-94 | any filter but search with an empty value (or a range missing a bound) filters as if it had not been added |
| Participants.TravelFilterEmptiesStoredList | app/participants/page.jsx:75-77 | over records conforming to the schema, which has no `travelWithUs`, an engaged travel filter leaves nothing |
| Participants.GenderExportRowCount | app/participants/page.jsx:96-97 | with only the gender filter set, the export has one row per record of that gender |
| Participants.SheetRows | app/participants/page.jsx:97 | the sheet has one row per shown record |
| Participants.WithoutMembers | app/participants/page.jsx:186 | removing a key keeps exactly the other keys and does not lengthen the list |
| Participants.WithoutKeepsDistinct | app/participants/page.jsx:186 | removing a key keeps the keys distinct |
| Participants.WithoutDistinctLength | app/participants/page.jsx:186 | in a list without repetitions, removing a present key shortens it by exactly one |
| Participants.AddThenRemove | app/participants/page.jsx:163-191 | adding a new key and then cancelling it gives back the previous list |
| Participants.FilterPanel.constructor | app/participants/page.jsx:15-25 | no active filters, every value empty |
| Participants.FilterPanel.AddFilter | app/participants/page.jsx:163-168 | a chosen key not yet active is appended; the placeholder or an active key changes nothing; values are untouched; keys stay distinct |
| Participants.FilterPanel.RemoveFilter | app/participants/page.jsx:185-191 | the key leaves the active list, which shrinks by one when the key was there; the other keys stay in order; its value is cleared and no other value changes |
| Participants.RegDateDropsLastDay | app/participants/page.jsx:88-93 | a record created one millisecond after midnight of the `to` day is filtered out, though it was created on a chosen day |
| Participants.CreatedWithinDaysByDay | app/participants/page.jsx:88-93 | the day-inclusive test keeps exactly the records whose UTC creation day lies between the two chosen days |
| Parts.FilterMembersSpec | app/parts/page.jsx:102-108 | the filter keeps, in order, exactly the participants whose lowered name includes the lowered search and whose gender and payment match or whose select is "all" |
| Parts.FilterMembersCounts | app/parts/page.jsx:102-108 | a listed participant appears as often as in the loaded list, any other not at all |
| Parts.InitialFiltersKeepAll | app/parts/page.jsx:102-108 | with the initial search "" and both selects "all", every participant is listed |
| Parts.InsertPermutation | app/parts/page.jsx:109 | inserting one record adds exactly that record |
| Parts.SortPermutation | app/parts/page.jsx:109-116 | sorting rearranges the list: same multiset, same length |
| Parts.InsertKeepsTies | app/parts/page.jsx:109-116 | inserting a record keeps, among the records of any one sort value, the order of the input with the new record first |
| Parts.SortKeepsTies | app/parts/page.jsx:109-116 | the sort is stable: records sharing a sort value (participants of one gender, say) come out in the order they went in |
| Parts.JsLessIrreflexive | app/parts/page.jsx:113-114 | no value is `<` itself, so equal sort values tie |
| Parts.FieldKindsAgree | app/parts/page.jsx:111-112 | a property present in two records has the same kind of value in both, so the comparator never meets a string against a number |
| Parts.SortAllTiesKeepsOrder | app/parts/page.jsx:109-116 | when the comparator returns 0 for every pair, the stable sort keeps the order |
| Parts.NoKeyKeepsOrder | app/parts/page.jsx:110 | with a `null` key the comparator is 0 and the list keeps its order |
| Parts.AbsentKeyKeepsOrder | app/parts/page.jsx:111-115 | a key that is no record property reads `undefined` on both sides, every comparison is false, and the order is kept |
| Parts.HeaderSortKeepsOrder | app/parts/page.jsx:220-245 | every header key except "gender" is no record property, so clicking those headers leaves the list order unchanged |
| Parts.JsLessAsymmetric | app/parts/page.jsx:113-114 | `x < y` and `y < x` never both hold |
| Parts.NotLessTransitive | app/parts/page.jsx:113-115 | among values of one kind, "not less than" is transitive |
| Parts.CompareAntisymmetric | app/parts/page.jsx:109-116 | the comparator is antisymmetric: swapping the arguments negates the result |
| Parts.CompareTransitive | app/parts/page.jsx:109-116 | on values of one kind, the comparator's "not after" is transitive |
| Parts.SortedCons | app/parts/page.jsx:109 | a record that comes no later than every record of a sorted list can head it |
| Parts.InsertSorted | app/parts/page.jsx:109-116 | inserting into a sorted list keeps it sorted when values are of one kind |
| Parts.SortBySorted | app/parts/page.jsx:109-116 | the sort result is in comparator order when the key yields one kind of value |
| Parts.SortOrdersByField | app/parts/page.jsx:109-116 | sorting by a property of one kind keeps the records and orders them by that property, ascending for "asc" and descending for "desc" |
| Parts.GenderSortOrdered | app/parts/page.jsx:223 | clicking "Gender" orders the list by gender in the chosen direction and keeps the same records |
| Parts.FilteredMembersArePermutation | app/parts/page.jsx:102-116 | the visible list holds exactly the filtered participants, and before any header click it is in the filter's order |
| Parts.HandleSortToggles | app/parts/page.jsx:118-125 | clicking the current key flips the direction; clicking another key starts ascending; two clicks on the current key restore the configuration |
| Parts.OrDash | app/parts/page.jsx:149 | the JavaScript `value or "-"` default is never empty: the value when present and non-empty, otherwise "-" |
| Parts.ExportRowOf | app/parts/page.jsx:142-157 | each column copies its property: name, gender, birth date, number, emergency contact, email, parish, life status, payment and creation time; address, comment and prayer intention carry a present non-empty value and "-" otherwise; the proof column reads "Slip Attached" iff a proof is stored, "-" otherwise |
| Parts.ExportRows | app/parts/page.jsx:141-158 | one row per loaded participant; row i is the column projection of participant i |
| Parts.ExportCoversEveryView | app/parts/page.jsx:141-158 | whatever the search, selects and sort, the export writes one row per loaded participant, never fewer than the page lists, and a row for every listed participant |
| Parts.ExportRowsMonotone | app/parts/page.jsx:141-158 | exporting a sub-multiset of participants yields a sub-multiset of rows |
| Parts.ExportVisibleRows | app/parts/page.jsx:102-116 | one row per visible participant, in display order, and no row more often than the whole-list export writes it |
| Parts.ExportIgnoresFilters | app/parts/page.jsx:141 | with a search that hides one of two participants, the list shows one and the export still writes two rows |
| Parts.HeaderField | app/parts/page.jsx:220-245 | every header key is mapped to a property that no record lacks |
| Parts.NameHeaderDoesNotSortByName | app/parts/page.jsx:220 | after clicking "Name", two names out of order stay out of order |
| Parts.HeaderFieldSortOrdered | app/parts/page.jsx:220-245 | sorting by the property a header stands for keeps the records and orders them by that property |
| Parts.PartsPage.constructor | app/parts/page.jsx:13-18 | no sort key, ascending, not authenticated |
| Parts.PartsPage.RestoreSession | app/parts/page.jsx:24-33 | a non-empty flag with an unexpired time authenticates and keeps storage; otherwise both items are removed |
| Parts.PartsPage.CompleteLogin | app/parts/page.jsx:44-49 | after login the flag is "true" and the session is active exactly at times before now + 900000 ms |
| Parts.PartsPage.HandleSort | app/parts/page.jsx:118-125 | the sort configuration becomes the toggle of the old one and nothing else changes |
| Register.IndexOf | app/register/page.jsx:47 | the index of the first occurrence, or the length when there is none |
| Register.EmailTestMatchesPattern | app/register/page.jsx:47-48 | the direct email test accepts exactly the strings `/^[^\s@]+@[^\s@]+\.[^\s@]+$/` matches |
| Register.EmailShape | app/register/page.jsx:47 | an accepted address has no white space, exactly one `@` with text before it, and a `.` after it with text on both sides |
| Register.EmptyIsNoEmail | app/register/page.jsx:48 | the empty address is refused |
| Register.ValidateForm | app/register/page.jsx:34-53 | the errors object has, per field, the page's message exactly when that field's rule fails, and nothing otherwise |
| Register.ErrorsIffRejected | app/register/page.jsx:34-53 | validation reports at least one error exactly when some rule fails, and an empty object exactly when all hold |
| Register.SameNumberRejected | app/register/page.jsx:43-46 | a form whose emergency contact equals its WhatsApp number is never accepted, and unless the contact is blank the message is the same-number one |
| Register.SamePhoneNumberMessage | app/register/page.jsx:41-46 | a valid ten-digit number repeated as the emergency contact draws the same-number message |
| Register.ProofError | app/register/page.jsx:62-69 | a file is refused iff it is not JPEG/PNG ("Only JPG/PNG allowed.") or larger than 2 MiB ("File size must be under 2MB."), the type test first |
| Register.ProofSizeBoundary | app/register/page.jsx:66 | exactly 2 MiB is accepted and one byte more is refused |
| Register.UndefinedIfEmpty | app/register/page.jsx:106 | the JavaScript `value or undefined` default is absent iff the value is empty, and a present value is the non-empty original |
| Register.BuildPayload | app/register/page.jsx:98-112 | the payload copies name, gender, status, birth date, both numbers, email and parish, carries the page's payment method and the upload's storage id, and holds address, prayer intention and comment unchanged when non-empty and absent when empty |
| Register.SubmitEffects | app/register/page.jsx:87-117 | the upload comes first; the insert follows exactly when the upload answered, as the second request, with the payload built from the form and the storage id; navigation is last and happens exactly when the upload answered and the insert succeeded |
| Register.RegistrationForm.constructor | app/register/page.jsx:11-28 | an empty form, no errors, not registering, no submit error, payment method "online" |
| Register.RegistrationForm.HandleFileChange | app/register/page.jsx:59-73 | no file: nothing changes; a refused file: its message is recorded and the stored file is kept; an accepted file: the message is cleared and the file stored |
| Register.RegistrationForm.HandleSubmit | app/register/page.jsx:75-124 | an invalid form stores exactly the validation errors and asks nothing of the backend; a valid one clears the errors, uploads, inserts and navigates in order, and sets the submit error iff the upload or the insert failed; every exit ends with `registering` false |

## Left out

- Convex backend, network and navigation: `listAll`, `generateUploadUrl`, the `fetch` that posts the file, `createRegistration` and `nav.push` are not modelled. Their answers are parameters of `HandleSubmit`. An upload reply of `None` stands for a throwing URL request or `fetch`.
- The storage id when the upload's JSON has no `storageId`: the model takes every successful upload as carrying an id.
- Login: the password check against `/api/auth` (app/api/auth/route.js is not part of this model). `CompleteLogin` is the success branch only, and the participants page's `authenticated` flag is not modelled.
- Spreadsheet writing (`XLSX`, `saveAs`): the model stops at the rows handed to `json_to_sheet`.
- Dates: JavaScript `Date` parsing and `toLocaleDateString`. Birth dates and the birth-date bounds are day numbers. The schema stores `dateOfBirth` as a date string, and comparing ISO date strings agrees with comparing day numbers. `createdAt` is a millisecond instant. The registration-date bounds are the instants of midnight UTC of the chosen days, which is how a date input's value parses. The `Registered` column carries the creation time unformatted.
- `Parts.PartsPage.RestoreSession`: a stored expiry `parseInt` cannot read (NaN) is modelled as a missing one. Both make the test false.
- Text.LexLess: compares strings by Unicode code points. JavaScript compares UTF-16 code units, and the two orders differ when a character beyond U+FFFF meets one in U+E000 to U+FFFF.
- Text.Lower: only ASCII letters are lowered; Unicode case mapping is not modelled.
- The sort: `Array.prototype.sort` is modelled as a stable insertion sort. Its results agree with any stable sort only where the comparator is consistent, which the model proves for keys of one kind.
- `handleInputChange` and the filter value setters are not modelled: they only copy an input's value into state. Rendering (the sort icons, the per-filter inputs, `showPassword`) is not modelled either.
- `setPaymentMethod` is never called, so the payment method is always "online" (`RegistrationForm.paymentMethod`).
- Register.RegistrationForm.HandleSubmit: the contract states the state after the call, not the window in which `registering` is true while the requests are pending.
- Register.RegistrationForm.HandleFileChange: an error entry set to `null` is modelled as no error, since both read as no message.
- Register.ValidateForm: each property of `newErrors` is a local variable, assembled into the errors record at the end.
- Registration ids are carried as data but play no part in any rule.
- Convex's `_creationTime` is not modelled. It is not a property of `Registration`, so it is not a column of the participants export and `FieldOf` reads it as `undefined`. No rule uses it.
- Parts.JsLess: a string compared with a number is taken as false, where JavaScript would convert the string to a number. No sort key reaches that case, because every property yields one kind of value or `undefined`.
- Files that are only display (register-success, the prayer card, the loader, the image, and app/parts/[id]/page.tsx) are not part of this model.
- The edit page app/parts/[id]/page.jsx lies outside the modelled pages. It refuses a blank parish name, patches `parishName` and `comment` through `updateRegistration`, and repeats the parts page's session rule.

## Findings

| source | as written | input that shows it | evidently intended | confidence | as-written member | corrected member |
|---|---|---|---|---|---|---|
| app/parts/page.jsx:141 | the export maps `participants`, the whole loaded list | participants "Anna" and "Ben" with the search "anna": one row is shown, two are exported | export the visible `filteredMembers`, as the participants page exports its `filteredData` | medium, not executed | Parts.ExportIgnoresFilters | Parts.ExportVisibleRows |
| app/parts/page.jsx:220-245 | the headers pass "name", "status", "dob", "parish", "payment" and "registered", none of which is a record property, so the comparator compares `undefined` with `undefined` | after clicking "Name", the list ["Bea", "Al"] stays in that order | sort by the column's property: `fullName`, `lifeStatus`, `dateOfBirth`, `parishName`, `paymentMethod`, `createdAt` | high, not executed | Parts.NameHeaderDoesNotSortByName | Parts.HeaderFieldSortOrdered |
| app/participants/page.jsx:88-93 | the registration-date filter compares the creation instant with `new Date(to)`, midnight UTC at the start of the `to` day | a record created at `to` plus one millisecond is dropped although it was created on the `to` day | keep records created on any chosen day, the `to` day included | medium, not executed | Participants.RegDateDropsLastDay | Participants.CreatedWithinDaysByDay |
