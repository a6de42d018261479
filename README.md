# MDLinking components: reachability classification and relative date labels

This project models two small pieces of a mobile chat client's components in Dafny.

- **Reachability** (`reachability.dfy`): the connectivity observer `NetworkReachability`.
  - A platform reachability flag set is classified into `unreachable`, `reachableWiFi` or `reachableCellular`.
    Only three bits are read, in a fixed priority: `Reachable`, then `ConnectionOnTraffic`, then `IsWWAN`.
  - The observer caches the last status in `currentStatus`, which starts at `unreachable`.
  - It calls its optional delegate on every flag-change event, even when the status did not change.
    The delegate is a slot holding at most one listener identity.
    The ghost field `notifications` records every delegate call.
  - The pure function `Classify` is the specification of the classification.
    The method `ParseFlags` keeps the shape of `parseFlags` (a local status reassigned through nested `if`s) and is proved to compute `Classify`.
  - `Replay` folds a run of events into the observable state (status plus notifications).
    The lemma `ReplayNotifiesEveryEvent` states that N events give N notifications in order.
    `DeliverEvents` calls `ParseFlags` once per event on an observer and is proved to end in the state `Replay` describes, so the property holds of the object too.
- **Relative dates** (`relative_date.dfy`): the `NSDate` extension behind `mdString`.
  - A date is a calendar day index and a second within that day.
  - "Now" is an explicit parameter instead of the wall clock.
  - The result is a tag naming one of the three cached formatters (with its pattern) or the literal `"Yesterday"`.
    No text is rendered.
- `wrappers.dfy` holds the `Option` type used for Swift optionals.

The model follows the code where the documented intent of these components differs from it:
- A date exactly 6 days back gets the short date, because the comparison at `NSDate+MDLinking.swift:71` is `>=`.
  The doc comment at line 55 says "more than 6 days" (see Findings).
- A date on a later day than today gets the weekday name, however far ahead it is.
  The code has no branch for future dates, so they never get the short date.
- The observer has no guard against a second `startObserving`, no teardown that unregisters, and no serialisation of delegate calls.
  The model has none of these either.

## Model

| member | source | states |
|---|---|---|
| `Reachability.Classify` | NetworkReachability.swift:59-69 | the status is reachable exactly when `Reachable` is on and `ConnectionOnTraffic` is off, and is cellular exactly when it is reachable and `IsWWAN` is on |
| `Reachability.UnreachableWithoutReachable` | NetworkReachability.swift:61-62 | without `Reachable` the status is `unreachable`, whatever the other bits |
| `Reachability.ConnectionOnTrafficOverridesWWAN` | NetworkReachability.swift:62-63 | `Reachable` with `ConnectionOnTraffic` gives `unreachable`, even with `IsWWAN` on |
| `Reachability.CellularWhenWWAN` | NetworkReachability.swift:63-67 | `Reachable`, no `ConnectionOnTraffic`, `IsWWAN` gives `reachableCellular` |
| `Reachability.WiFiOtherwise` | NetworkReachability.swift:63-64 | `Reachable`, no `ConnectionOnTraffic`, no `IsWWAN` gives `reachableWiFi` |
| `Reachability.ClassifyReadsOnlyInspectedBits` | NetworkReachability.swift:59-69 | flag sets that agree on the three inspected bits get the same status |
| `Reachability.Notify` | NetworkReachability.swift:76 | a status change sends exactly one notification, carrying the new status, when a delegate is set, and none otherwise |
| `Reachability.ReplayNotifiesEveryEvent` | NetworkReachability.swift:70-77 | after N events the cached status is the last event's classification (or unchanged for N = 0); with a delegate exactly N notifications are appended, the i-th carrying the i-th event's classification, repeats included; without one nothing is appended; earlier notifications are kept |
| `Reachability.OnEvent` | NetworkReachability.swift:59-77 | one event sets the status to the flags' classification and appends exactly one notification carrying it when a delegate is set, none otherwise, keeping earlier notifications |
| `Reachability.Replay` | NetworkReachability.swift:24-28 | a run of callback deliveries with a fixed delegate: the status is the last event's classification and no earlier notification is lost |
| `Reachability.DeliverEvents` | NetworkReachability.swift:24-28 | delivering events to an observer one `ParseFlags` call at a time leaves it in the state `Replay` gives from its old state |
| `Reachability.NetworkReachability.constructor` | NetworkReachability.swift:32-43 | a new observer holds the platform handle, has no delegate, status `unreachable` and no notifications |
| `Reachability.NetworkReachability.SetDelegate` | NetworkReachability.swift:33 | the delegate slot is replaced; status and notifications are untouched |
| `Reachability.NetworkReachability.ParseFlags` | NetworkReachability.swift:59-71 | the new status is the classification of the flags, exactly one notification is appended when a delegate is set, and nothing else of the object changes |
| `Reachability.NetworkReachability.StatusChanged` | NetworkReachability.swift:73-77 | the cached status is overwritten by the given one, unconditionally, and the delegate (if any) is notified with it |
| `Reachability.Create` | NetworkReachability.swift:36-43 | the initialiser yields an observer exactly when the platform returned a handle for the fixed host; the new observer is fresh, unreachable, without delegate and notifications |
| `RelativeDate.Interval` | NSDate+MDLinking.swift:71 | seconds since the epoch lie within the date's calendar day |
| `RelativeDate.IsEqualToDate` | NSDate+MDLinking.swift:85 | two dates compare equal exactly when they are the same instant |
| `RelativeDate.Reduced` | NSDate+MDLinking.swift:113-118 | the result is the start of the calendar day the date falls on: a whole number of days, not after the date and less than a day before it |
| `RelativeDate.DateByAdding` | NSDate+MDLinking.swift:102-105 | the result is exactly `days` whole days after (or before) the date |
| `RelativeDate.ReducedIsIdempotent` | NSDate+MDLinking.swift:107-118 | reducing twice is reducing once |
| `RelativeDate.ReducedEqualIffSameDay` | NSDate+MDLinking.swift:113-118 | two instants reduce to the same date exactly when they fall on the same calendar day |
| `RelativeDate.IsToday` | NSDate+MDLinking.swift:91-97 | true exactly when the date and now reduce to the same day |
| `RelativeDate.IsYesterday` | NSDate+MDLinking.swift:83-89 | true exactly when the reduced date is one day before reduced now |
| `RelativeDate.Pattern` | NSDate+MDLinking.swift:23-42 | each formatter has its own `dateFormat`: `"HH:mm"` for the shared one, `"EEEE"` for the day formatter, `"EE/MM/YY"` for the date formatter, and no two share a pattern |
| `RelativeDate.Choice` | NSDate+MDLinking.swift:64-77 | a formatted result yields one of the three patterns, `"EEEE"` exactly for the day formatter; a literal yields its own text |
| `RelativeDate.MdString` | NSDate+MDLinking.swift:60-78 | exactly one of four results: the time-of-day formatter iff same day; `"Yesterday"` iff one day back; the short-date formatter iff 6 or more days back; the weekday formatter iff 2 to 5 days back or any later day; a formatter is always applied to the date itself |
| `RelativeDate.MdStringIgnoresTimeOfDay` | NSDate+MDLinking.swift:64-77 | the choice depends only on the calendar days of the date and of now |
| `RelativeDate.TodayShowsTimeOfDay` | NSDate+MDLinking.swift:64-77 | a date on today's calendar day is shown with the `"HH:mm"` pattern |
| `RelativeDate.SixDaysBackShowsShortDate` | NSDate+MDLinking.swift:71-72 | a date exactly 6 days back gets the `"EE/MM/YY"` short date |
| `RelativeDate.FutureShowsWeekday` | NSDate+MDLinking.swift:71-74 | a date on a later day than today gets the `"EEEE"` weekday pattern |
| `RelativeDate.MdStringAsDocumented` | NSDate+MDLinking.swift:52-57 | with the documented boundary: the short date iff more than 6 days back, the weekday name iff 2 to 6 days back or any later day, today and yesterday as before |
| `RelativeDate.SixDaysBackAsDocumented` | NSDate+MDLinking.swift:55 | under the documented boundary, a date exactly 6 days back gets the `"EEEE"` weekday name |

## Findings

| source | as written | input that shows it | evidently intended | confidence | as-written member | corrected member |
|---|---|---|---|---|---|---|
| NSDate+MDLinking.swift:71 | `now - 6 days` (reduced) `>=` the reduced date selects the short date | a date exactly 6 calendar days before now gets `"EE/MM/YY"` | the doc comment at line 55 says the short date is for more than 6 days back, so a date 6 days back should get its weekday name (`>`) | medium, not executed | `RelativeDate.SixDaysBackShowsShortDate` | `RelativeDate.MdStringAsDocumented` |

`MdString` itself keeps the behaviour as written.

## Left out

- `startObserving` (NetworkReachability.swift:50-57): it only calls foreign SystemConfiguration functions (`SCNetworkReachabilitySetCallback`, `SCNetworkReachabilitySetDispatchQueue`). A delivered event is modelled as a direct call of `ParseFlags`.
- The C callback and its `unsafeBitCast` of the context pointer back to the observer (NetworkReachability.swift:24-28, 53): pointer and lifetime plumbing with no functional behaviour to state.
- `SCNetworkReachabilityCreateWithName` (NetworkReachability.swift:38): a foreign call. Its answer is the `lookup` parameter of `Create`, and the `print` on failure is I/O.
- The empty `deinit` (NetworkReachability.swift:45-48): it does nothing, so there is no teardown to model.
- Background delivery and cross-thread visibility of `currentStatus`: the model is sequential.
- The delegate object and its `networkStatusChanged` body: only the calls made to it are recorded, as `Notification` values.
- `MDFormatter` and its static formatter caches (NSDate+MDLinking.swift:17-48): the three patterns are kept in `Pattern`, but rendering a date with `"HH:mm"`, `"EEEE"` or `"EE/MM/YY"` is locale and time-zone dependent formatting by the platform. The model returns which formatter is used, not text.
- `NSCalendar` arithmetic (eras, time zones, daylight saving): days are integer indices of 86400 seconds each.
- The fallbacks `?? NSDate()` in `dateByAdding` and `?? self` in `reduced` (NSDate+MDLinking.swift:104, 117): the calendar computations cannot fail in the model.
- Reading the wall clock with `NSDate()` (NSDate+MDLinking.swift:71, 85, 93): "now" is a parameter, and the three separate clock reads are taken as one instant. A call that straddles midnight can differ: for a date on day N-1, `isToday` read late on day N and `isYesterday` read on day N+1 both fail, so the code gives the weekday name where the model gives "Yesterday".
- Sub-second precision: `NSDate` and `timeIntervalSince1970` carry fractional seconds; instants here are whole seconds. Only start-of-day values are compared, so no choice depends on it.
