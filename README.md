# Equipment rental app — a verified model of its logic

This project models the data logic of a single-page equipment rental app and
proves properties of the model. The app keeps four record lists: equipment,
rentals, maintenance records and notifications. Each list lives in a provider
and is written back whole to browser storage after every change. The model
also covers:

- a session provider with a fixed table of sample users, and its login form;
- dashboard figures and chart data;
- a rental calendar;
- three edit/create forms with field validation;
- four list pages with search and filters;
- an equipment detail page.

## How the model is built

- **One module per source file.** Five shared modules hold the common pieces.
  - `Wrappers`: `Option`.
  - `JsValues`: the JavaScript behaviour the code relies on — `===` on ids,
    truthiness, `trim`, `toLowerCase` on the ASCII and Latin-1 capitals,
    `includes`, and `parseInt` with the default radix (decimal, or
    hexadecimal after `0x`).
  - `Seqs`: `filter`, `find`, map-where-matching, `slice` and dedupe through
    `Set`, each with lemmas.
  - `Dates`: day numbers, Gregorian month lengths, weekdays and instants.
  - `Records`: the record types, object-spread patches and storage.
  - `FormState` holds what the three forms share: the route-id test, clearing
    one error, and the empty-error test.
- **Ids** are `Num(n) | NaN | Str(s)`. Ids are compared with `===`, and a
  form's `<select>` stores an id as text. The model keeps that text, so
  `Num(2)` and `Str("2")` stay different, as they are in the source.
- **Providers are classes.** A provider holds its list in a `seq` field, plus
  the `LocalStorage` object it writes to. Every mutator ensures three things:
  - the new list is a named pure function of the old list (`Added`,
    `Updated`, `Deleted`, …), and the lemmas are about that function;
  - the stored value under the provider's key is the new list
    (`Persisted()`), and no other key changes;
  - the storage stays well formed.
- **Dates** are day numbers counted from 1970-01-01, and months are numbered
  1..12. "Now" on the dashboard is an `Instant`: a day plus the milliseconds
  since its midnight. A `YYYY-MM-DD` string is compared at its midnight.
- **Forms are classes.** A form has a fixed route id (`Option<string>`), the
  `formData` record and the `errors` map. Each step is specified in one of
  two ways.
  - Some steps are tied to a pure function whose meaning is proved
    separately. `ValidateForm` rebuilds `errors` as `Errors(formData)`, and
    `ErrorsSpec` states which keys `Errors` holds and why.
  - Other steps are stated field by field through `Field`. `ApplyEdit` is the
    `{...prev, [name]: value}` update.
- Empty date inputs are `None`, and so are empty fee and cost inputs.
  Fee and cost are whole numbers.

### Behaviour worth knowing

- **Overdue rentals.** The dashboard counts a rental as overdue when the
  midnight of its end date is before the current instant. A rental ending
  today is therefore overdue from just after midnight, not only once its end
  date has passed. `KPICards.OverdueIff` states this rule.
- **The rentals table** (`RentalList.jsx`) filters on `customer` and
  `equipment` keys. Stored rentals have neither key; they have `customerName`
  and `equipmentId`. With a non-empty customer or equipment filter, the
  filter callback therefore throws on the first rental that passes the
  status test. `RentalList.FilteredRows` models the throw as `None`, and
  `RentalList.ProviderRentalsThrow` proves that this always happens on
  provider data.
- **Rentals created through the rental form** keep the `<select>` text as
  their `equipmentId`. `RentalsList` would list them as "Unknown Equipment"
  (`RentalsList.TextEquipmentIdIsUnknown`); the rentals page's table and
  calendar print `rental.equipment`, which no stored rental has. They never
  appear in an item's rentals tab (`EquipmentDetail.TextEquipmentIdNeverListed`).
- **`addRentalRecord`** spreads `item.rentalHistory`, and no seed item has
  one. On those items the call throws before anything changes. The model
  returns `ok == false` with the state unchanged
  (`EquipmentContext.SeedCannotRecord`).

## Model

| member | source | states |
|---|---|---|
| Wrappers.Or | src/contexts/EquipmentContext.jsx:86 | one key of `{...a, ...b}`: the later object's value wins when present, otherwise the earlier one stays |
| JsValues.StrictEqNeverCoerces | src/components/Rentals/RentalsList.jsx:21 | `===` never equates a number with its decimal text, in either order |
| JsValues.TrimStartSpec | src/components/Authentication/LoginForm.jsx:22-23 | the kept part is a suffix of the input; the dropped prefix is white space; the result does not start with white space |
| JsValues.TrimEndSpec | src/components/Authentication/LoginForm.jsx:22-23 | the kept part is a prefix of the input; the dropped suffix is white space; the result does not end with white space |
| JsValues.TrimIsSlice | src/components/Authentication/LoginForm.jsx:22-23 | `trim` returns a contiguous slice whose two cut-offs are white space and which neither starts nor ends with white space |
| JsValues.TrimEmptyIff | src/components/Rentals/RentalForm.jsx:46 | a value trims to `''` exactly when it is all white space |
| JsValues.TrimIdempotent | src/components/Authentication/LoginForm.jsx:22-23 | trimming twice is trimming once |
| JsValues.Lower | src/components/Equipment/EquipmentList.jsx:14-15 | keeps the length; maps `A`..`Z` and the Latin-1 capitals `À`..`Þ` (except `×`) to their lower-case letters, and keeps every other character |
| JsValues.LowerIdempotent | src/components/Equipment/EquipmentList.jsx:14-15 | lower-casing twice is lower-casing once |
| JsValues.IncludesIff | src/components/Equipment/EquipmentList.jsx:14-15 | `includes` holds exactly when the term occurs at some position |
| JsValues.IncludesEmpty | src/components/Equipment/EquipmentList.jsx:14-17 | every string includes `''`, so an empty search matches everything |
| JsValues.ParseInt | src/components/Equipment/EquipmentDetail.jsx:25 | `parseInt` yields a number or `NaN`, never a string |
| JsValues.ParseIntHex | src/components/Equipment/EquipmentDetail.jsx:25 | with no radix, a `0x`/`0X` prefix after an optional sign reads hexadecimal digits of either case (`"0x2"` is 2, `" -0X1a"` is -26), and a prefix with no hex digit after it is `NaN` |
| JsValues.ParseIntNeedsDigit | src/components/Equipment/EquipmentDetail.jsx:25 | text without any decimal digit parses to `NaN` |
| JsValues.ParseIntDecimal | src/components/Rentals/RentalForm.jsx:29 | the decimal spelling of a natural number parses back to that number |
| Seqs.Filter | src/contexts/EquipmentContext.jsx:93 | `filter` keeps exactly the elements that pass, and is no longer than its input |
| Seqs.FilterMultiset | src/contexts/EquipmentContext.jsx:93 | each passing value occurs in the result exactly as often as in the input, and each failing value not at all |
| Seqs.Count | src/components/Dashboard/KPICards.jsx:27 | the number of passing elements is at most the list's length, and is 0 exactly when no element passes |
| Seqs.CountCons | src/components/Dashboard/KPICards.jsx:27 | one more element in front adds one to the count exactly when it passes, so the count is the number of passing elements |
| Seqs.CountDisjoint | src/components/Dashboard/KPICards.jsx:27-28 | for two tests that no element passes together, the two counts add up to the count of elements passing either |
| Seqs.FilterAppend | src/contexts/EquipmentContext.jsx:93 | filtering a concatenation filters each part |
| Seqs.FilterKeepsAll | src/contexts/EquipmentContext.jsx:93 | a test every element passes keeps the whole list |
| Seqs.FilterIsSubsequence | src/contexts/EquipmentContext.jsx:93 | a filter's result is an order-preserving subsequence of its input |
| Seqs.TakeIsPrefix | src/components/Rentals/RentalCalendar.jsx:115 | `slice(0, n)` keeps the first elements in place |
| Seqs.Find | src/components/Equipment/EquipmentDetail.jsx:25 | `find` is undefined exactly when nothing matches; otherwise it is the first match |
| Seqs.FindFirst | src/components/Equipment/EquipmentDetail.jsx:25 | a match with no match before it is what `find` returns |
| Seqs.FindAppend | src/contexts/EquipmentContext.jsx:79 | a match in a prefix hides every match appended after it |
| Seqs.MapWhere | src/contexts/EquipmentContext.jsx:85-87 | `map(x => m(x) ? f(x) : x)` keeps the length, transforms the matches and leaves the rest untouched |
| Seqs.MapWhereNoMatch | src/contexts/EquipmentContext.jsx:85-87 | with no match, the map changes nothing |
| Seqs.Dedupe | src/components/Equipment/EquipmentList.jsx:23 | `[...new Set(s)]` contains exactly the values of `s`, each once |
| Seqs.DedupeFirstOccurrenceOrder | src/components/Equipment/EquipmentList.jsx:23 | the distinct values come in the order of their first occurrences |
| Dates.DaysInMonth | src/components/Rentals/RentalCalendar.jsx:10-12 | Gregorian month lengths: 29 for a leap February, 28 for any other February, 30 or 31 by month |
| Dates.NextMonth | src/components/Rentals/RentalCalendar.jsx:49 | the month after (y, m) is one month index later, and is a valid month |
| Dates.PrevMonth | src/components/Rentals/RentalCalendar.jsx:40 | the month before (y, m) is one month index earlier, and is a valid month |
| Dates.MonthEndMeetsNextStart | src/components/Rentals/RentalCalendar.jsx:10-12 | the day after a month's last day is the 1st of the next month, across year ends |
| Dates.Weekday | src/components/Rentals/RentalCalendar.jsx:14-16 | `getDay()` lies in 0..6 |
| Dates.WeekdaySucc | src/components/Rentals/RentalCalendar.jsx:14-16 | consecutive days have consecutive weekdays, and the weekday repeats every 7 days |
| Dates.MonthIndexRoundTrip | src/components/Dashboard/Charts.jsx:116 | counting months from year 0 and reading back the (year, month) pair are inverse |
| Dates.StartBeforeIff | src/components/Dashboard/KPICards.jsx:33-34 | a date is before an instant exactly when it is an earlier day, or the same day after midnight |
| Records.EquipmentPatch.FormData | src/components/Equipment/EquipmentForm.jsx:59 | reading a patch that holds all six form keys as data, and viewing that data as a patch again, gives the same patch without id and history |
| Records.EquipmentAsPatch | src/components/Equipment/EquipmentForm.jsx:27 | an item seen as an object has every form key and its own id |
| Records.EquipmentDataAsPatch | src/components/Equipment/EquipmentForm.jsx:59 | submitted data carries the six form keys and neither an id nor a history |
| Records.NewEquipment | src/contexts/EquipmentContext.jsx:79 | `{...data, id}` is the submitted keys plus the given id, with no history |
| Records.MergeEquipmentWithData | src/contexts/EquipmentContext.jsx:86 | spreading submitted data over an item replaces the six form keys and keeps its id and history |
| Records.MergeEquipmentIdempotent | src/contexts/EquipmentContext.jsx:86 | spreading the same patch twice is spreading it once |
| Records.MergeWholeItem | src/contexts/EquipmentContext.jsx:86 | spreading a whole item over another gives that item, except that a missing history keeps the other's |
| Records.NewRental | src/contexts/RentalsContext.jsx:64 | `{...newRental, id}` carries the supplied id |
| Records.MergeRentalWithData | src/contexts/RentalsContext.jsx:71 | updating a record with full submitted data gives the record that adding that data under the record's own id gives |
| Records.MergeRentalIdempotent | src/contexts/RentalsContext.jsx:71 | spreading a rental patch twice is spreading it once |
| Records.NewMaintenance | src/contexts/MaintenanceContext.jsx:64 | `{...newMaintenance, id}` carries the supplied id |
| Records.MergeMaintenanceWithData | src/contexts/MaintenanceContext.jsx:71 | updating a record with full submitted data gives the record that adding that data under the record's own id gives |
| Records.MergeMaintenanceIdempotent | src/contexts/MaintenanceContext.jsx:71 | spreading a maintenance patch twice is spreading it once |
| Records.LocalStorage.GetItem | src/contexts/EquipmentContext.jsx:68 | `getItem` returns the stored value for a present key, and `null` exactly for an absent one |
| Records.LocalStorage.SetItem | src/contexts/EquipmentContext.jsx:73 | `setItem` replaces one key; a value of the key's kind keeps storage well formed |
| Records.LocalStorage.RemoveItem | src/contexts/AuthContext.jsx:70 | `removeItem` drops exactly that key |
| EquipmentContext.SampleEquipmentIds | src/contexts/EquipmentContext.jsx:14-60 | five seed items, with ids 1..5 in order, none with a rental history |
| EquipmentContext.Added | src/contexts/EquipmentContext.jsx:78-82 | the old list is untouched, followed by exactly one item: the submitted keys with the supplied id |
| EquipmentContext.Updated | src/contexts/EquipmentContext.jsx:84-90 | the length is kept; every item whose id is `===` the target gets the patch spread over it; every other item is unchanged |
| EquipmentContext.Deleted | src/contexts/EquipmentContext.jsx:92-96 | no kept item has the id; every item without the id is kept |
| EquipmentContext.NewEntry | src/contexts/EquipmentContext.jsx:104 | the history entry carries the new id |
| EquipmentContext.WithRentalRecord | src/contexts/EquipmentContext.jsx:98-111 | it throws (`None`) exactly when a matching item lacks a history; otherwise each matching item is "Rented", has the entry appended to its history and is otherwise unchanged, and every other item is untouched |
| EquipmentContext.DeletedIsOrderedSubsequence | src/contexts/EquipmentContext.jsx:93 | the items that survive a delete keep their order |
| EquipmentContext.DeletedMultiset | src/contexts/EquipmentContext.jsx:92-96 | every item without the id is kept as many times as it occurred, and no item with the id is left |
| EquipmentContext.UnknownIdIsNoOp | src/contexts/EquipmentContext.jsx:84-96 | an id no item has leaves both update and delete as no-ops |
| EquipmentContext.UpdateIdempotent | src/contexts/EquipmentContext.jsx:84-87 | updating twice with the same patch is updating once |
| EquipmentContext.AddThenDeleteRestores | src/contexts/EquipmentContext.jsx:78-96 | adding under a fresh id and then deleting that id gives back the old list |
| EquipmentContext.AddDuplicateIdIsShadowed | src/contexts/EquipmentContext.jsx:79 | adding does not check ids: reusing an existing id leaves two items with that id |
| EquipmentContext.SeedCannotRecord | src/contexts/EquipmentContext.jsx:98-111 | no seed item can take a rental record, because none has a history |
| EquipmentContext.EquipmentProvider.constructor | src/contexts/EquipmentContext.jsx:63-64 | the provider starts with an empty list, still loading |
| EquipmentContext.EquipmentProvider.Load | src/contexts/EquipmentContext.jsx:66-76 | a stored list is used as it is; otherwise the seed becomes both the state and the stored value; loading ends |
| EquipmentContext.EquipmentProvider.AddEquipment | src/contexts/EquipmentContext.jsx:78-82 | the list becomes `Added(old, data, id)`, and storage holds it under "equipment" |
| EquipmentContext.EquipmentProvider.UpdateEquipment | src/contexts/EquipmentContext.jsx:84-90 | the list becomes `Updated(old, id, patch)`, and storage holds it |
| EquipmentContext.EquipmentProvider.DeleteEquipment | src/contexts/EquipmentContext.jsx:92-96 | the list becomes `Deleted(old, id)`, and storage holds it |
| EquipmentContext.EquipmentProvider.AddRentalRecord | src/contexts/EquipmentContext.jsx:98-111 | it succeeds exactly when `WithRentalRecord` does, then stores that list; on a throw neither the list nor storage changes |
| RentalsContext.SampleRentalIds | src/contexts/RentalsContext.jsx:14-45 | three seed rentals, with ids 1..3 in order |
| RentalsContext.Added | src/contexts/RentalsContext.jsx:63-67 | the old list is untouched, followed by one record carrying the submitted fields and the supplied id; there is no date or overlap check |
| RentalsContext.Updated | src/contexts/RentalsContext.jsx:69-75 | the length is kept; the patch is merged into id-matching rentals only; the others are unchanged |
| RentalsContext.Deleted | src/contexts/RentalsContext.jsx:77-81 | no kept rental has the id; every rental without it is kept |
| RentalsContext.DeletedIsOrderedSubsequence | src/contexts/RentalsContext.jsx:78 | the survivors of a delete keep their order |
| RentalsContext.DeletedMultiset | src/contexts/RentalsContext.jsx:77-81 | every rental without the id is kept as many times as it occurred, and no rental with the id is left |
| RentalsContext.UnknownIdIsNoOp | src/contexts/RentalsContext.jsx:69-81 | update and delete on an unknown id are no-ops |
| RentalsContext.UpdateIdempotent | src/contexts/RentalsContext.jsx:69-72 | updating twice with one patch is updating once |
| RentalsContext.AddThenDeleteRestores | src/contexts/RentalsContext.jsx:63-81 | adding under a fresh id and then deleting it gives back the old list |
| RentalsContext.UpdateWithSameDataAfterAdd | src/contexts/RentalsContext.jsx:63-75 | re-saving a just-added rental with its own data leaves it as it was |
| RentalsContext.RentalsProvider.constructor | src/contexts/RentalsContext.jsx:48-49 | the provider starts with an empty list, still loading |
| RentalsContext.RentalsProvider.Load | src/contexts/RentalsContext.jsx:51-61 | a stored list is used; otherwise the seed is both the state and the stored value |
| RentalsContext.RentalsProvider.AddRental | src/contexts/RentalsContext.jsx:63-67 | the list becomes `Added(...)`, and storage holds it under "rentals" |
| RentalsContext.RentalsProvider.UpdateRental | src/contexts/RentalsContext.jsx:69-75 | the list becomes `Updated(...)`, and storage holds it |
| RentalsContext.RentalsProvider.DeleteRental | src/contexts/RentalsContext.jsx:77-81 | the list becomes `Deleted(...)`, and storage holds it |
| MaintenanceContext.SampleMaintenanceIds | src/contexts/MaintenanceContext.jsx:14-45 | three seed records, with ids 1..3 in order |
| MaintenanceContext.Added | src/contexts/MaintenanceContext.jsx:63-67 | the old list is untouched, followed by one record carrying the submitted fields and the supplied id |
| MaintenanceContext.Updated | src/contexts/MaintenanceContext.jsx:69-75 | the length is kept; the patch is merged into id-matching records only |
| MaintenanceContext.Deleted | src/contexts/MaintenanceContext.jsx:77-81 | no kept record has the id; every record without it is kept |
| MaintenanceContext.DeletedIsOrderedSubsequence | src/contexts/MaintenanceContext.jsx:78 | the survivors of a delete keep their order |
| MaintenanceContext.DeletedMultiset | src/contexts/MaintenanceContext.jsx:77-81 | every record without the id is kept as many times as it occurred, and no record with the id is left |
| MaintenanceContext.UnknownIdIsNoOp | src/contexts/MaintenanceContext.jsx:69-81 | update and delete on an unknown id are no-ops |
| MaintenanceContext.UpdateIdempotent | src/contexts/MaintenanceContext.jsx:69-72 | updating twice with one patch is updating once |
| MaintenanceContext.AddThenDeleteRestores | src/contexts/MaintenanceContext.jsx:63-81 | adding under a fresh id and then deleting it gives back the old list |
| MaintenanceContext.UpdateWithSameDataAfterAdd | src/contexts/MaintenanceContext.jsx:63-75 | re-saving a just-added record with its own data leaves it as it was |
| MaintenanceContext.MaintenanceProvider.constructor | src/contexts/MaintenanceContext.jsx:48-49 | the provider starts with an empty list, still loading |
| MaintenanceContext.MaintenanceProvider.Load | src/contexts/MaintenanceContext.jsx:51-61 | a stored list is used; otherwise the seed is both the state and the stored value |
| MaintenanceContext.MaintenanceProvider.AddMaintenance | src/contexts/MaintenanceContext.jsx:63-67 | the list becomes `Added(...)`, and storage holds it under "maintenance" |
| MaintenanceContext.MaintenanceProvider.UpdateMaintenance | src/contexts/MaintenanceContext.jsx:69-75 | the list becomes `Updated(...)`, and storage holds it |
| MaintenanceContext.MaintenanceProvider.DeleteMaintenance | src/contexts/MaintenanceContext.jsx:77-81 | the list becomes `Deleted(...)`, and storage holds it |
| NotificationContext.SetRead | src/contexts/NotificationContext.jsx:46 | `{...n, read: true}` is read and otherwise the same |
| NotificationContext.NewNotification | src/contexts/NotificationContext.jsx:30-35 | kind and message come from the caller; the id and timestamp are the defaults unless the caller supplies its own; it is read exactly when the caller passes `read: true` |
| NotificationContext.Prepended | src/contexts/NotificationContext.jsx:36 | the new notification comes first, followed by the old list |
| NotificationContext.Dismissed | src/contexts/NotificationContext.jsx:40 | no kept notification has the id; every one without it is kept |
| NotificationContext.MarkedRead | src/contexts/NotificationContext.jsx:44-48 | the length is kept; matching ids become read; everything else is unchanged |
| NotificationContext.UnreadCount | src/contexts/NotificationContext.jsx:51-53 | at most the list length, and 0 exactly when every notification is read |
| NotificationContext.DismissedIsOrderedSubsequence | src/contexts/NotificationContext.jsx:40 | the survivors of a dismissal keep their order |
| NotificationContext.DismissedMultiset | src/contexts/NotificationContext.jsx:39-41 | every notification without the id is kept as many times as it occurred, and none with the id is left |
| NotificationContext.UnknownIdIsNoOp | src/contexts/NotificationContext.jsx:39-49 | dismiss and mark-as-read on an unknown id are no-ops |
| NotificationContext.MarkAsReadIdempotent | src/contexts/NotificationContext.jsx:43-49 | marking twice is marking once |
| NotificationContext.UnreadCountPrepended | src/contexts/NotificationContext.jsx:29-53 | adding a notification raises the unread count by one exactly when it is unread |
| NotificationContext.MarkAsReadNeverRaisesUnread | src/contexts/NotificationContext.jsx:43-53 | marking as read never raises the unread count |
| NotificationContext.MarkedAreRead | src/contexts/NotificationContext.jsx:43-49 | after marking, no notification with that id is unread |
| NotificationContext.NotificationProvider.constructor | src/contexts/NotificationContext.jsx:14 | there is no seed: the list starts empty |
| NotificationContext.NotificationProvider.Persist | src/contexts/NotificationContext.jsx:25-27 | the persist effect writes the current list under "notifications" and nothing else |
| NotificationContext.NotificationProvider.Mount | src/contexts/NotificationContext.jsx:14-27 | a stored list comes back unchanged; without one the list stays empty and an empty list is stored |
| NotificationContext.NotificationProvider.AddNotification | src/contexts/NotificationContext.jsx:29-37 | the list becomes `Prepended(old, NewNotification(...))`, and it is persisted |
| NotificationContext.NotificationProvider.DismissNotification | src/contexts/NotificationContext.jsx:39-41 | the list becomes `Dismissed(old, id)`, and it is persisted |
| NotificationContext.NotificationProvider.MarkAsRead | src/contexts/NotificationContext.jsx:43-49 | the list becomes `MarkedRead(old, id)`, and it is persisted |
| NotificationContext.NotificationProvider.GetUnreadCount | src/contexts/NotificationContext.jsx:51-53 | at most the list length, and 0 exactly when everything is read |
| AuthContext.SessionOf | src/contexts/AuthContext.jsx:54-59 | the session record copies id, email, role and name; it has no password key |
| AuthContext.Authenticate | src/contexts/AuthContext.jsx:47-49 | a session exists exactly when some user matches both email and password exactly; it is the first such user's session |
| AuthContext.SampleCredentialsSignIn | src/contexts/AuthContext.jsx:6-28 | each sample user's own credentials open that user's session |
| AuthContext.EmailIsCaseSensitive | src/contexts/AuthContext.jsx:48 | a differently cased email does not sign in |
| AuthContext.AuthProvider.constructor | src/contexts/AuthContext.jsx:31-32 | no user, and loading |
| AuthContext.AuthProvider.Restore | src/contexts/AuthContext.jsx:34-41 | a stored user becomes the user; without one the user is unchanged; loading ends |
| AuthContext.AuthProvider.Login | src/contexts/AuthContext.jsx:43-66 | it returns true exactly on a match; then the user is the session and is stored under "user"; on failure the user and storage are unchanged |
| AuthContext.AuthProvider.Logout | src/contexts/AuthContext.jsx:68-71 | no user, and exactly the "user" key removed |
| LoginForm.SubmitOutcome | src/components/Authentication/LoginForm.jsx:16-53 | a submission navigates, always to "/dashboard", exactly when it leaves no error |
| LoginForm.SubmitSucceedsIff | src/components/Authentication/LoginForm.jsx:22-40 | a submission succeeds exactly when the trimmed inputs are some sample user's credentials |
| LoginForm.EmptyMessageIff | src/components/Authentication/LoginForm.jsx:22-31 | the "enter both" message appears exactly when an input is blank or all white space |
| LoginForm.TrimmingIsInvisible | src/components/Authentication/LoginForm.jsx:22-35 | surrounding white space never changes the outcome |
| LoginForm.LoginForm.constructor | src/components/Authentication/LoginForm.jsx:7-11 | empty inputs, no error, not loading, password hidden |
| LoginForm.LoginForm.SetEmail | src/components/Authentication/LoginForm.jsx:80 | only the email changes |
| LoginForm.LoginForm.SetPassword | src/components/Authentication/LoginForm.jsx:98 | only the password changes |
| LoginForm.LoginForm.TogglePassword | src/components/Authentication/LoginForm.jsx:103 | `showPassword` flips, and nothing else changes |
| LoginForm.LoginForm.HandleSubmit | src/components/Authentication/LoginForm.jsx:16-53 | error and target are `SubmitOutcome`'s; never loading at the end; a blank input leaves the session untouched; otherwise the session is `login`'s on the trimmed values |
| KPICards.TotalEquipment | src/components/Dashboard/KPICards.jsx:26 | the total is the list length |
| KPICards.StatusCount | src/components/Dashboard/KPICards.jsx:27-28 | the number of items with a given status (the 'Available' and 'Rented' cards): at most the total, and zero exactly when no item has that status |
| KPICards.StatusCountCons | src/components/Dashboard/KPICards.jsx:27-28 | an item in front adds one to the count of its own status and leaves every other status's count unchanged, which fixes the count's value |
| KPICards.AvailablePlusRentedAtMostTotal | src/components/Dashboard/KPICards.jsx:27-28 | available plus rented never exceeds the total |
| KPICards.OverdueCount | src/components/Dashboard/KPICards.jsx:31-35 | at most the number of rentals, and 0 exactly when none is overdue |
| KPICards.OverdueIff | src/components/Dashboard/KPICards.jsx:31-35 | overdue means an end date that is an earlier day, or today after midnight, and a status other than 'Completed' |
| KPICards.CompletedNeverOverdue | src/components/Dashboard/KPICards.jsx:32-35 | completed rentals are never counted |
| KPICards.NextWeek | src/components/Dashboard/KPICards.jsx:38-39 | seven days on, at the same time of day |
| KPICards.UpcomingCount | src/components/Dashboard/KPICards.jsx:38-43 | at most the number of records, and 0 exactly when none is upcoming |
| KPICards.UpcomingIff | src/components/Dashboard/KPICards.jsx:38-43 | upcoming means a date within the next seven days, today only at midnight exactly, and a status other than 'Completed' |
| Charts.EquipmentUsage | src/components/Dashboard/Charts.jsx:93-109 | three entries in the order Available, Rented, Maintenance, each with its colour and counting items of that status |
| Charts.UsageAtMostTotal | src/components/Dashboard/Charts.jsx:93-109 | the three counts sum to at most the number of items |
| Charts.ShortMonthName | src/components/Dashboard/Charts.jsx:117 | every short month label has three letters |
| Charts.LabelMonth | src/components/Dashboard/Charts.jsx:123 | a label that is recognised is the short name of the month it yields |
| Charts.LabelMonthRoundTrip | src/components/Dashboard/Charts.jsx:117-123 | reading a month's label back gives the month |
| Charts.SixMonthLabels | src/components/Dashboard/Charts.jsx:112-120 | six labels, the last one the current month's |
| Charts.SixMonthsWrap | src/components/Dashboard/Charts.jsx:116 | the first `6 - month` of the six months lie in the previous year, the rest in the current one |
| Charts.GetLastSixMonths | src/components/Dashboard/Charts.jsx:112-120 | the loop builds exactly `SixMonthLabels`, oldest first |
| Charts.BucketAsWritten | src/components/Dashboard/Charts.jsx:123-134 | a bucket keeps its label |
| Charts.RentalTrendsAsWritten | src/components/Dashboard/Charts.jsx:122-135 | one bucket per label, in order; each counts rentals starting in that month of the current year |
| Charts.RentalTrends | src/components/Dashboard/Charts.jsx:122-135 | six buckets with the six labels; each counts the rentals starting in that label's own month and year |
| Charts.TrendsAgreeFromJune | src/components/Dashboard/Charts.jsx:122-135 | from June to December the code as written gives the intended buckets |
| Charts.PreviousYearMonthMissed | src/components/Dashboard/Charts.jsx:123 | in March 2024 a rental from December 2023 is missed by the code as written and counted as intended |
| RentalCalendar.MonthLength | src/components/Rentals/RentalCalendar.jsx:10-12 | `daysInMonth` is the Gregorian month length |
| RentalCalendar.MonthLengthIsLastDay | src/components/Rentals/RentalCalendar.jsx:10-12 | the length lies in 28..31, and the day after it is the 1st of the next month |
| RentalCalendar.FirstDayOfMonth | src/components/Rentals/RentalCalendar.jsx:14-16 | the weekday of the 1st lies in 0..6 |
| RentalCalendar.KnownWeekdays | src/components/Rentals/RentalCalendar.jsx:14-16 | Sunday is 0: 1 January 1970 was a Thursday (4) and 1 September 2024 a Sunday |
| RentalCalendar.RentalsForDate | src/components/Rentals/RentalCalendar.jsx:18-25 | exactly the rentals, of any status, with start ≤ day ≤ end, both ends included |
| RentalCalendar.RentalsForDateInOrder | src/components/Rentals/RentalCalendar.jsx:18-25 | the rentals of a day keep list order |
| RentalCalendar.SelectedDateRentals | src/components/Rentals/RentalCalendar.jsx:141-144 | rentals are listed exactly when a day is selected, and they are that day's |
| RentalCalendar.DayCellFor | src/components/Rentals/RentalCalendar.jsx:95-126 | each day gets a day cell for that day |
| RentalCalendar.DayCellContents | src/components/Rentals/RentalCalendar.jsx:95-126 | a cell counts the day's rentals, shows the first two in order, shows "+k more" exactly when there are more than two with k the rest, and marks today and the selection |
| RentalCalendar.Blanks | src/components/Rentals/RentalCalendar.jsx:90-92 | `n` empty cells |
| RentalCalendar.BlanksAreBlank | src/components/Rentals/RentalCalendar.jsx:90-92 | every padding cell is blank |
| RentalCalendar.Grid | src/components/Rentals/RentalCalendar.jsx:85-127 | the grid has `firstDay + daysInMonth` cells |
| RentalCalendar.MakerAt | src/components/Rentals/RentalCalendar.jsx:95-98 | the cell made for a day is that day's cell |
| RentalCalendar.PaddedLayout | src/components/Rentals/RentalCalendar.jsx:89-127 | blank cells first, then the made cells for days 1, 2, … |
| RentalCalendar.GridLayout | src/components/Rentals/RentalCalendar.jsx:89-127 | blanks below the offset, then day `i - first + 1` at position `i`, in ascending order |
| RentalCalendar.PushCells | src/components/Rentals/RentalCalendar.jsx:87-127 | the two push loops build the blanks followed by days 1..total |
| RentalCalendar.RenderGrid | src/components/Rentals/RentalCalendar.jsx:83-127 | the rendered cells are `Grid` with the weekday of the 1st as offset |
| RentalCalendar.Normalize | src/components/Rentals/RentalCalendar.jsx:40 | a day past the month's end runs on into the next month; the result names the same day |
| RentalCalendar.Target | src/components/Rentals/RentalCalendar.jsx:40-49 | the arrows move one month forward or back, across year ends |
| RentalCalendar.ShiftMonthAsWritten | src/components/Rentals/RentalCalendar.jsx:40-49 | `setMonth(m ± 1)` as written: the same day of month, run on when the target month is shorter |
| RentalCalendar.ShiftMonth | src/components/Rentals/RentalCalendar.jsx:40-49 | as intended: the target month, with the day clamped to that month's length |
| RentalCalendar.ShiftAgreesWhenDayFits | src/components/Rentals/RentalCalendar.jsx:40-49 | when the day exists in the target month, the two agree |
| RentalCalendar.NextFromJanuary31SkipsFebruary | src/components/Rentals/RentalCalendar.jsx:49 | as written, forward from 31 January 2024 lands on 2 March; as intended, on 29 February |
| RentalCalendar.PreviousFromMarch31StaysInMarch | src/components/Rentals/RentalCalendar.jsx:40 | as written, back from 31 March 2024 lands on 2 March; as intended, on 29 February |
| RentalCalendar.ShiftMonthRoundTrip | src/components/Rentals/RentalCalendar.jsx:40-49 | forward then back restores a date whose day is at most 28 |
| RentalCalendar.CalendarView.constructor | src/components/Rentals/RentalCalendar.jsx:6-8 | today shown, no selection, month view |
| RentalCalendar.CalendarView.Previous | src/components/Rentals/RentalCalendar.jsx:40 | the shown date becomes `ShiftMonth(old, back)`; selection and view mode are kept |
| RentalCalendar.CalendarView.Next | src/components/Rentals/RentalCalendar.jsx:49 | the shown date becomes `ShiftMonth(old, forward)`; selection and view mode are kept |
| RentalCalendar.CalendarView.GoToToday | src/components/Rentals/RentalCalendar.jsx:73 | the shown date becomes today |
| RentalCalendar.CalendarView.SetViewMode | src/components/Rentals/RentalCalendar.jsx:56-70 | only the view mode changes |
| RentalCalendar.CalendarView.SelectDay | src/components/Rentals/RentalCalendar.jsx:105 | the clicked date of the shown month becomes the selection |
| FormState.ClearError | src/components/Rentals/RentalForm.jsx:97-103 | the same keys; the edited key's message becomes `''` if it had one; every other message is unchanged |
| FormState.ClearErrorIdempotent | src/components/Rentals/RentalForm.jsx:97-103 | clearing twice is clearing once |
| FormState.NoErrorsIff | src/components/Rentals/RentalForm.jsx:65 | `Object.keys(errors).length === 0` exactly when no key is present |
| RentalForm.ErrorsSpec | src/components/Rentals/RentalForm.jsx:44-63 | each checked field is an error exactly when it fails its test, with its message; an end before the start is reported on the end date; no other key appears |
| RentalForm.NoErrorsIffValid | src/components/Rentals/RentalForm.jsx:44-65 | no errors exactly when the name is non-blank, equipment is chosen, both dates are given with start ≤ end, and the fee is > 0 |
| RentalForm.Submitted | src/components/Rentals/RentalForm.jsx:72-75 | the submitted rental has a non-blank name, truthy equipment, start ≤ end and a positive fee |
| RentalForm.SubmitThenPrefill | src/components/Rentals/RentalForm.jsx:31-39 | opening a rental that a valid form created shows that form again |
| RentalForm.PrefillThenSubmit | src/components/Rentals/RentalForm.jsx:72-79 | saving a prefilled form unchanged rewrites the rental as it was, with missing notes becoming `''` |
| RentalForm.Field | src/components/Rentals/RentalForm.jsx:91-96 | `formData[name]` is defined exactly for the seven input names |
| RentalForm.FieldsDetermineForm | src/components/Rentals/RentalForm.jsx:91-96 | forms that agree on every input are equal |
| RentalForm.ApplyEdit | src/components/Rentals/RentalForm.jsx:91-96 | the named field takes the value, and every other field keeps its own |
| RentalForm.UncheckedInputs | src/components/Rentals/RentalForm.jsx:44-63 | editing status or notes never changes the errors |
| RentalForm.PickedEquipmentIsText | src/components/Rentals/RentalForm.jsx:153-170 | a rental whose equipment was picked in the `<select>` stores text, which no numeric id `===` |
| RentalForm.Form.constructor | src/components/Rentals/RentalForm.jsx:15-25 | empty fields, status 'Active', no errors |
| RentalForm.Form.Prefill | src/components/Rentals/RentalForm.jsx:27-42 | under an id route, the first rental `===` `parseInt(id)` fills the form; otherwise nothing changes |
| RentalForm.Form.ValidateForm | src/components/Rentals/RentalForm.jsx:44-66 | `errors` becomes `Errors(formData)`; it returns true exactly when the form is valid |
| RentalForm.Form.HandleChange | src/components/Rentals/RentalForm.jsx:91-104 | `formData` becomes `ApplyEdit(old, e)`, and only that field's error is cleared |
| RentalForm.Form.HandleSubmit | src/components/Rentals/RentalForm.jsx:68-89 | an invalid form writes nothing and does not navigate; a valid one updates `parseInt(id)` under an id route, otherwise adds under the new id, then goes to "/rentals"; only the "rentals" key of storage is rewritten, and the provider's loading flag is unchanged |
| MaintenanceForm.ErrorsSpec | src/components/Maintenance/MaintenanceForm.jsx:46-62 | each checked field is an error exactly when it fails, with its message; description, status and notes never are |
| MaintenanceForm.NoErrorsIffValid | src/components/Maintenance/MaintenanceForm.jsx:46-65 | no errors exactly when equipment, type, date and assignee are given and the cost is > 0 |
| MaintenanceForm.Submitted | src/components/Maintenance/MaintenanceForm.jsx:71-74 | the submitted record has truthy equipment, a non-blank type and assignee, and a positive cost |
| MaintenanceForm.SubmitThenPrefill | src/components/Maintenance/MaintenanceForm.jsx:32-41 | opening a record that a valid form created shows that form again |
| MaintenanceForm.PrefillThenSubmit | src/components/Maintenance/MaintenanceForm.jsx:71-78 | saving a prefilled form unchanged rewrites the record, with missing description and notes becoming `''` |
| MaintenanceForm.Field | src/components/Maintenance/MaintenanceForm.jsx:90-95 | `formData[name]` is defined exactly for the eight input names |
| MaintenanceForm.FieldsDetermineForm | src/components/Maintenance/MaintenanceForm.jsx:90-95 | forms that agree on every input are equal |
| MaintenanceForm.ApplyEdit | src/components/Maintenance/MaintenanceForm.jsx:90-95 | the named field takes the value, and every other field keeps its own |
| MaintenanceForm.UncheckedInputs | src/components/Maintenance/MaintenanceForm.jsx:46-62 | editing description, status or notes never changes the errors |
| MaintenanceForm.Form.constructor | src/components/Maintenance/MaintenanceForm.jsx:15-26 | empty fields, status 'Scheduled', no errors |
| MaintenanceForm.Form.Prefill | src/components/Maintenance/MaintenanceForm.jsx:28-44 | under an id route, the first record `===` `parseInt(id)` fills the form; otherwise nothing changes |
| MaintenanceForm.Form.ValidateForm | src/components/Maintenance/MaintenanceForm.jsx:46-65 | `errors` becomes `Errors(formData)`; it returns true exactly when the form is valid |
| MaintenanceForm.Form.HandleChange | src/components/Maintenance/MaintenanceForm.jsx:90-103 | `formData` becomes `ApplyEdit(old, e)`, and only that field's error is cleared |
| MaintenanceForm.Form.HandleSubmit | src/components/Maintenance/MaintenanceForm.jsx:67-88 | an invalid form writes nothing; a valid one updates `parseInt(id)` or adds under the new id, then goes to "/maintenance"; only the "maintenance" key of storage is rewritten, and the provider's loading flag is unchanged |
| EquipmentForm.DefaultForm | src/components/Equipment/EquipmentForm.jsx:12-19 | status 'Available', condition 'Good', last maintenance today, other fields empty, no id |
| EquipmentForm.ErrorsSpec | src/components/Equipment/EquipmentForm.jsx:32-42 | name, type and location are errors exactly when blank, with their messages; status, condition and date are never checked |
| EquipmentForm.NoErrorsIffValid | src/components/Equipment/EquipmentForm.jsx:32-45 | no errors exactly when name, type and location are non-blank |
| EquipmentForm.Field | src/components/Equipment/EquipmentForm.jsx:74-79 | `formData[name]` is undefined for names the form lacks |
| EquipmentForm.FieldsDetermineForm | src/components/Equipment/EquipmentForm.jsx:74-79 | form states that agree on every input, on the id and on the history are equal |
| EquipmentForm.ApplyEdit | src/components/Equipment/EquipmentForm.jsx:74-79 | the named field takes the value, every other field keeps its own, and the id and history are kept |
| EquipmentForm.UncheckedInputs | src/components/Equipment/EquipmentForm.jsx:32-42 | editing status, condition or date never changes the errors |
| EquipmentForm.PrefillThenSubmit | src/components/Equipment/EquipmentForm.jsx:23-53 | saving a prefilled item unchanged leaves the item as it was |
| EquipmentForm.Form.constructor | src/components/Equipment/EquipmentForm.jsx:12-21 | the defaults, and no errors |
| EquipmentForm.Form.Prefill | src/components/Equipment/EquipmentForm.jsx:23-30 | under an id route, the whole first item `===` `parseInt(id)` becomes the form, id and status included |
| EquipmentForm.Form.ValidateForm | src/components/Equipment/EquipmentForm.jsx:32-45 | `errors` becomes `Errors(formData)`; it returns true exactly when the form is valid |
| EquipmentForm.Form.HandleChange | src/components/Equipment/EquipmentForm.jsx:74-87 | `formData` becomes `ApplyEdit(old, e)`, and only that field's error is cleared |
| EquipmentForm.Form.HandleSubmit | src/components/Equipment/EquipmentForm.jsx:47-72 | an invalid form writes nothing; a valid one updates `parseInt(id)` with the whole form or adds it under the new id, then goes to "/equipment"; only the "equipment" key of storage is rewritten, and the provider's loading flag is unchanged |
| EquipmentList.FilteredEquipment | src/components/Equipment/EquipmentList.jsx:13-20 | an item is shown exactly when the search is in its name or type (ignoring case) and both filters admit it; list order is kept |
| EquipmentList.FilteredEquipmentMultiset | src/components/Equipment/EquipmentList.jsx:13-20 | a shown item is listed as often as it is stored, and an item failing a test not at all |
| EquipmentList.NoFilterShowsAll | src/components/Equipment/EquipmentList.jsx:13-20 | an empty search with both filters at 'all' shows every item |
| EquipmentList.SearchIgnoresCase | src/components/Equipment/EquipmentList.jsx:14-15 | a lower-cased term finds the same items as the term itself |
| EquipmentList.Kinds | src/components/Equipment/EquipmentList.jsx:23 | `map(item => item.type)` position by position |
| EquipmentList.Categories | src/components/Equipment/EquipmentList.jsx:23 | exactly the types some item has, each once, in first-occurrence order |
| RentalsList.FilteredRentals | src/components/Rentals/RentalsList.jsx:13-18 | a rental is shown exactly when the search is in its customer name or its notes (ignoring case) and the status filter admits it; order is kept |
| RentalsList.FilteredRentalsMultiset | src/components/Rentals/RentalsList.jsx:13-18 | a shown rental is listed as often as it is stored, and a rental failing a test not at all |
| RentalsList.AllStatusesAdmitted | src/components/Rentals/RentalsList.jsx:13-18 | status 'all' filters by the search alone |
| RentalsList.NoFilterShowsAll | src/components/Rentals/RentalsList.jsx:13-18 | an empty search with status 'all' lists every rental |
| RentalsList.NotesSearch | src/components/Rentals/RentalsList.jsx:14-15 | a match in the notes finds the rental; without notes, only the customer name counts |
| RentalsList.EquipmentName | src/components/Rentals/RentalsList.jsx:20-23 | the first item with a `===` id gives its name; with none, 'Unknown Equipment' |
| RentalsList.TextEquipmentIdIsUnknown | src/components/Rentals/RentalsList.jsx:21 | against numeric item ids, an equipment id stored as text is always unknown |
| RentalsList.SeedRentalsNameSeedEquipment | src/components/Rentals/RentalsList.jsx:20-23 | every seed rental names a seed item |
| MaintenanceList.FilteredMaintenance | src/components/Maintenance/MaintenanceList.jsx:13-19 | a record is shown exactly when the search is in its type, description or assignee (ignoring case) and the status filter admits it; order is kept |
| MaintenanceList.FilteredMaintenanceMultiset | src/components/Maintenance/MaintenanceList.jsx:13-19 | a shown record is listed as often as it is stored, and a record failing a test not at all |
| MaintenanceList.AllStatusesAdmitted | src/components/Maintenance/MaintenanceList.jsx:13-19 | status 'all' filters by the search alone |
| MaintenanceList.NoFilterShowsAll | src/components/Maintenance/MaintenanceList.jsx:13-19 | an empty search with status 'all' lists every record |
| MaintenanceList.SeedRecordsNameSeedEquipment | src/components/Maintenance/MaintenanceList.jsx:21-24 | every seed record names a seed item |
| RentalList.Rows | src/components/Rentals/RentalList.jsx:17 | the table sees each provider rental with its status and neither a customer nor an equipment key |
| RentalList.PassesOnCompleteRow | src/components/Rentals/RentalList.jsx:17-23 | on a row with both keys, each non-empty filter must match: status exactly, and customer and equipment as substrings, ignoring case |
| RentalList.FilteredRows | src/components/Rentals/RentalList.jsx:17-23 | the filter throws exactly when some row's callback throws; otherwise it keeps the passing rows in order |
| RentalList.NoFiltersListAll | src/components/Rentals/RentalList.jsx:17-23 | with all filters empty, nothing throws and every row is listed |
| RentalList.ProviderRentalsThrow | src/components/Rentals/RentalList.jsx:20-21 | on provider rentals, a non-empty customer or equipment filter throws once any rental passes the status test |
| RentalList.FilterValue | src/components/Rentals/RentalList.jsx:6-10 | the filter state has exactly the three keys |
| RentalList.SetFilter | src/components/Rentals/RentalList.jsx:14 | the named filter takes the value, and the other two keep theirs |
| RentalList.FilterValuesDetermine | src/components/Rentals/RentalList.jsx:14 | filter states that agree on the three keys are equal |
| RentalList.StatusColor | src/components/Rentals/RentalList.jsx:25-36 | yellow exactly for Reserved, blue exactly for Rented, green exactly for Returned, gray exactly for anything else |
| RentalList.FormStatusesAreGray | src/components/Rentals/RentalList.jsx:25-36 | the statuses the rental form offers (Active, Completed, Cancelled) all render gray |
| RentalList.View.constructor | src/components/Rentals/RentalList.jsx:6-10 | all three filters start empty |
| RentalList.View.HandleFilterChange | src/components/Rentals/RentalList.jsx:12-15 | the filters become `SetFilter(old, name, value)` |
| EquipmentDetail.View | src/components/Equipment/EquipmentDetail.jsx:25-46 | not found exactly when no item `===` `parseInt(id)`; otherwise the first such item, with exactly its rentals and maintenance, each in list order |
| EquipmentDetail.NonNumericRouteNotFound | src/components/Equipment/EquipmentDetail.jsx:25 | a route id with no digit finds nothing, whatever the items' ids |
| EquipmentDetail.RouteOfItemFindsIt | src/components/Equipment/EquipmentDetail.jsx:25-46 | the route built from an item's numeric id shows the first item with that id and its history |
| EquipmentDetail.TextEquipmentIdNeverListed | src/components/Equipment/EquipmentDetail.jsx:45 | a rental whose equipment id is text never appears on a detail page |
| EquipmentDetail.DetailPage.constructor | src/components/Equipment/EquipmentDetail.jsx:16-22 | the rental entry is hidden and its four fields start empty |
| EquipmentDetail.DetailPage.HandleRentalSubmit | src/components/Equipment/EquipmentDetail.jsx:48-58 | records the entry on the found item's id; on success it hides and clears the entry form and rewrites only the "equipment" key of storage; when the call throws nothing changes; the provider's loading flag never changes |
| EquipmentDetail.DetailPage.HandleDelete | src/components/Equipment/EquipmentDetail.jsx:60-64 | deletes `parseInt(id)` only when confirmed, rewriting only the "equipment" key of storage; otherwise nothing changes; the provider's loading flag never changes |

## Left out

- JsValues.Lower: only `A`..`Z` and the Latin-1 capitals `À`..`Þ` are
  mapped. The rest of Unicode case mapping is not modelled: Greek, Cyrillic
  and other scripts, and the mappings that change a string's length, such as
  U+0130 becoming two code units. A search involving such letters may match
  in the app but not in the model.
- JsValues.ParseInt: numbers are unbounded integers. The rounding of
  `parseInt` results above 2^53 to the nearest double is not modelled.
- Rendering, CSS, routing, role guards, toasts, and the notification center's
  DOM listener are presentation without data logic.
- JSON encoding of stored values is not modelled. Storage holds the typed
  lists themselves, and a stored value is assumed to be of its key's kind
  (`LocalStorage.WellFormed`), because `JSON.parse` is not modelled.
- `Date.now()` ids and `new Date().toISOString()` timestamps are method
  parameters, and so is the current date or instant.
- Time zones and locale formatting are not modelled. A `YYYY-MM-DD` string
  and `new Date(y, m, d)` denote the same day, and month labels are the
  English short names.
- Fee and cost are whole numbers rather than `parseFloat` results, because
  floating point is not modelled.
- Calendar, date and number inputs hold parsed values, with an empty input
  as `None`. Malformed input text is not modelled; the browser's inputs do not
  produce it.
- `window.confirm` is a boolean parameter.
- `console.log` calls and React effect scheduling are not modelled. The
  re-run of a form's prefill whenever the provider list changes is the same
  `Prefill` method called again.
- LoginForm.LoginForm.HandleSubmit: the `catch` branch ("An error occurred
  during login") is not modelled, because `login` cannot throw.
- KPICards.NextWeek: `setDate(today.getDate() + 7)` is modelled as exactly
  seven days on. A daylight-saving change in between, which would shift it
  by an hour, is not modelled.
- RentalCalendar.CalendarView.SetViewMode: `viewMode` is stored but the grid
  ignores it, as in the source. There is no week view to model.
- RentalCalendar.DayCellContents: a day cell lists the first two rentals
  themselves. The calendar prints `rental.customer`, a key stored rentals
  lack, so the rendered text is empty; that text is not modelled.
- RentalCalendar.GridLayout: the grid is stated for any weekday offset
  `first`. `RenderGrid` passes `FirstDayOfMonth`.
- RentalCalendar.CalendarView.Previous and RentalCalendar.CalendarView.Next
  use the corrected `ShiftMonth`; the code as written is
  `ShiftMonthAsWritten` (see Findings).
- The `handleDelete` handlers of the three list pages are each one guarded
  call to the provider's delete. They are the same as
  `EquipmentDetail.DetailPage.HandleDelete` and are not modelled separately.
- EquipmentDetail.DetailPage.HandleRentalSubmit: the page has no inputs wired
  to `rentalData`, so the entry always carries what the state holds; the
  method takes that state as it is.
- The pie and bar chart geometry is floating-point drawing.
- The dashboard, equipment, rentals and maintenance page components only
  switch views, and are not modelled.

## Findings

| source | as written | input that shows it | evidently intended | confidence | as-written member | corrected member |
|---|---|---|---|---|---|---|
| src/components/Rentals/RentalCalendar.jsx:40-49 | the arrows call `setMonth(getMonth() ± 1)` on the shown date, keeping its day of month, which runs on past the end of a shorter target month | shown date 31 January 2024, right arrow: the calendar shows March 2024 (2 March), skipping February; from 31 March 2024 the left arrow stays in March | move exactly one month, with the day clamped to the target month's length | not executed | RentalCalendar.ShiftMonthAsWritten, RentalCalendar.NextFromJanuary31SkipsFebruary | RentalCalendar.ShiftMonth |
| src/components/Dashboard/Charts.jsx:123 | each trend label is read back with the current year, including the labels of months that fall in the previous year | in March 2024 the labels are Oct..Mar; a rental starting 10 December 2023 is counted in December 2024's bucket, which is 0 | each bucket counts the rentals starting in the month its label came from, in that month's year | not executed | Charts.RentalTrendsAsWritten, Charts.PreviousYearMonthMissed | Charts.RentalTrends |
