# SmartQ queue core, in Dafny

SmartQ is a clinic-queue mobile app. This project models its core.

- **Queue store.** The store holds at most one active booking and a most-recent-first history of past bookings. It has four operations:
  - replace the booking;
  - advance the served token, archiving the booking once the user's turn is reached;
  - snooze, which moves the user's token back by 2;
  - cancel.
- **Live-queue screen.** The values derived from the booking:
  - people ahead, total wait and minutes until the user must leave, with a fixed 10-minute buffer;
  - progress, clamped to at most 1;
  - the relax / alert / arrived state, with thresholds 0 and 15;
  - the texts chosen from these values;
  - the simulated timer tick, which advances the served token by one.
- **Home widget and queue visualizer.** Two other progress ratios and "ahead" counts, and proofs that they agree with the live screen.
- **Mock directory.** The first-doctor-of-a-clinic lookup and the three-tier queue badge.
- **"Find Care" list.** The wait status and label, and the search-plus-chip filter over the fixed clinic list.
- **Booking sheet.** A three-step wizard: patient, then transport, then confirm.

Each source file is one module:

- `queue_context.dfy` (`QueueContext`): the booking record. The `Store` snapshot and the pure transition functions `Replaced`, `Updated`, `Snoozed` and `Cancelled` specify the operations. The class `QueueStore` holds the two state cells and updates them in place; each of its methods is proved to take its snapshot to the matching function's result.
- `active_token.dfy` (`ActiveToken`): the `calculations` block, the display rules, and the tick. `Tick` is a method over the store; `Ticked` and `Ticks` are its pure counterparts.
- `active_token_widget.dfy`, `queue_visualizer.dfy`, `data.dfy`, `clinics.dfy`: pure functions and lemmas.
- `smart_booking_sheet.dfy` (`SmartBookingSheet`): the class `BookingSheet`, with the step and the two selections as fields.
- `wrappers.dfy`, `js_math.dfy`: `Option`, plus `Math.max` on integers and `Math.min` and `Math.max` on exact ratios.

Numbers:
- Tokens and minutes are `int`. Every such value in the app's data is an integer.
- Ratios are exact `real`s.
- A JavaScript division by zero becomes an infinity. Where a clamp turns that infinity into 1 or 0, the model does the same. Where the result is not a finite number, the model excludes that input with a `requires`.

Two choices follow the code as written:
- The live-queue screen has no separate emergency state. `isEmergency` only shows a badge; the state comes from the minutes left alone.
- `updateServingToken` does not check that the token is non-negative.

## Model

| member | source | states |
|---|---|---|
| `QueueContext.Replaced` | lib/queue-context.tsx:28 | `setActiveBooking` puts the given booking (or none) in place and leaves history unchanged |
| `QueueContext.Updated` | lib/queue-context.tsx:31-40 | no booking: nothing changes. Token at or past the user's: the booking, exactly as it stood, is put at the front of history and the active slot is cleared. Otherwise: only `servingToken` changes, to the given token. History only grows, and a waiting booking stays waiting |
| `QueueContext.Snoozed` | lib/queue-context.tsx:42-47 | no booking: nothing changes. Otherwise: `tokenNumber` rises by 2 and no other field changes. History is untouched, and a waiting booking stays waiting |
| `QueueContext.Cancelled` | lib/queue-context.tsx:49-56 | afterwards there is never an active booking. An existing booking is put at the front of history as it stood; with no booking, history is unchanged |
| `QueueContext.SnoozeTwice` | lib/queue-context.tsx:42-46 | two snoozes add 4 to the token; with no booking they leave the store as it was |
| `QueueContext.Apply` | lib/queue-context.tsx:31-56 | each single update, snooze or cancel keeps the old history as a suffix of the new one and keeps a waiting booking waiting |
| `QueueContext.HistoryOnlyGrows` | lib/queue-context.tsx:31-56 | after any sequence of update, snooze and cancel, the old history is a suffix of the new one |
| `QueueContext.WaitingPreserved` | lib/queue-context.tsx:31-56 | if the active booking has `servingToken < tokenNumber`, any sequence of update, snooze and cancel keeps that true (or leaves no booking) |
| `QueueContext.ReplacedMayBreakWaiting` | lib/queue-context.tsx:28 | `setActiveBooking` does not enforce that invariant: it accepts a booking whose turn has already come |
| `QueueContext.ArchiveOrder` | lib/queue-context.tsx:49-55 | cancelling A, then B, then C leaves the history reading C, B, A |
| `QueueContext.CompletionArchivesLikeCancel` | lib/queue-context.tsx:31-56 | reaching the user's turn archives the booking exactly as cancelling it does, so the archive order holds for either kind of archiving |
| `QueueContext.QueueStore.constructor` | lib/queue-context.tsx:28-29 | both state cells start empty |
| `QueueContext.QueueStore.SetActiveBooking` | lib/queue-context.tsx:28 | the in-place update matches `Replaced` |
| `QueueContext.QueueStore.UpdateServingToken` | lib/queue-context.tsx:31-40 | the in-place update matches `Updated` |
| `QueueContext.QueueStore.SnoozeBooking` | lib/queue-context.tsx:42-47 | the in-place update matches `Snoozed` |
| `QueueContext.QueueStore.CancelBooking` | lib/queue-context.tsx:49-56 | the in-place update matches `Cancelled` |
| `ActiveToken.PeopleBefore` | app/active-token.tsx:41 | the people ahead and the served token add up to the user's token; somebody is ahead iff the served token is below the user's |
| `ActiveToken.TotalWait` | app/active-token.tsx:42 | the total wait is 0 iff nobody is ahead or the average wait is 0; with people ahead and a positive average it is at least one average wait; never negative when both factors are not |
| `ActiveToken.TimeToLeave` | app/active-token.tsx:43 | leaving after this many minutes leaves exactly the travel time plus the 10-minute buffer before the user's turn |
| `JsMath.Max` | app/active-token.tsx:211 | `Math.max` on integers: the result is at least both arguments and is one of them |
| `JsMath.MinReal` | app/active-token.tsx:44 | `Math.min` on ratios: the result is at most both arguments and is one of them |
| `JsMath.MaxReal` | components/home/ActiveTokenWidget.tsx:33 | `Math.max` on ratios: the result is at least both arguments and is one of them |
| `ActiveToken.Progress` | app/active-token.tsx:44 | progress is never above 1 and is exactly 1 when nobody is ahead. When `0 <= servingToken < tokenNumber` it equals `servingToken / tokenNumber`, which lies in [0, 1) |
| `ActiveToken.StateOf` | app/active-token.tsx:46-48 | arrived iff the time to leave is at most 0; alert iff it is in (0, 15]; relax iff it is above 15 |
| `ActiveToken.StateMonotone` | app/active-token.tsx:46-48 | more time to leave never gives a more urgent state |
| `ActiveToken.Calculate` | app/active-token.tsx:39-51 | people ahead is `tokenNumber - servingToken`, total wait is that times `avgWaitTime`, and the time to leave is total wait minus travel minus 10. Progress and state are related to these as stated above |
| `ActiveToken.DisplayedTotalWait` | app/active-token.tsx:211 | the shown total wait is never negative and equals the raw total wait whenever that is not negative |
| `ActiveToken.LeaveInLabel` | app/active-token.tsx:231 | "Now!" is shown iff the time to leave is at most 0; otherwise the positive minute count is shown |
| `ActiveToken.LeaveInTone` | app/active-token.tsx:223-229 | danger iff the time to leave is at most 0; caution iff it is in (0, 15]; neutral iff it is above 15 |
| `ActiveToken.ToneAgreesWithState` | app/active-token.tsx:223-229 | the "Leave In" card's colour class (danger, alert, neutral) matches the banner state (arrived, alert, relax) |
| `ActiveToken.ProgressCaption` | app/active-token.tsx:200-203 | "N people ahead" is shown, with N = people ahead, iff somebody is ahead; otherwise "It's your turn!" |
| `ActiveToken.ProgressPercent` | app/active-token.tsx:194 | the percentage is within half a point of `progress * 100`, and lies in 0..100 when progress is in [0, 1] |
| `ActiveToken.TransportVerb` | app/active-token.tsx:144 | driving iff car, riding iff bike, walking iff walk |
| `ActiveToken.SnoozeRaisesWait` | app/active-token.tsx:113-114 | a snooze adds 2 to the people ahead, and `2 * avgWaitTime` to both the total wait and the time to leave |
| `ActiveToken.Ticked` | app/active-token.tsx:77-78 | one tick either raises `servingToken` by exactly 1 with nothing else changed, or archives the booking as it stood. With no booking it does nothing |
| `ActiveToken.TicksBeforeTurn` | app/active-token.tsx:77-78 | while fewer ticks have run than there were people ahead, the booking stays active with `servingToken` raised by the number of ticks, and history is unchanged |
| `ActiveToken.TicksUntilTurn` | app/active-token.tsx:77-78 | with no snoozes, exactly `tokenNumber - servingToken` ticks archive the booking, served up to the token before the user's |
| `ActiveToken.Tick` | app/active-token.tsx:77-78 | the in-place tick matches `Ticked` |
| `ActiveToken.WorkedExamples` | app/active-token.tsx:39-51 | token 20, serving 15, 5 min average, 10 min travel gives 5 ahead, 25 min, leave in 5, progress 0.75, alert. Serving 20 gives 0, 0, -20, progress 1, arrived |
| `ActiveTokenWidget.TokensAhead` | components/home/ActiveTokenWidget.tsx:32 | the widget's tokens ahead are the live screen's people ahead, positive iff the served token is below the user's |
| `ActiveTokenWidget.WidgetProgress` | components/home/ActiveTokenWidget.tsx:33 | the widget's progress always lies in [0, 1]. It is 1 once the served token reaches a positive user token, and `servingToken / tokenNumber` up to that point |
| `ActiveTokenWidget.EstimatedMins` | components/home/ActiveTokenWidget.tsx:36 | the estimate is the raw `tokensAhead` times `avgWaitTime`, with 5 used when `avgWaitTime` is 0 |
| `ActiveTokenWidget.Status` | components/home/ActiveTokenWidget.tsx:75-77 | "Almost your turn!" iff the estimate is under 15 minutes; otherwise the minutes to go |
| `ActiveTokenWidget.Widget` | components/home/ActiveTokenWidget.tsx:27-36 | the widget shows nothing iff there is no active booking. Otherwise it shows the booking's token, served token and clinic name, the raw difference as tokens ahead, `WidgetProgress` of the two tokens (in [0, 1]), the `EstimatedMins` estimate for that difference and the booking's average wait, and the `Status` message of that estimate |
| `ActiveTokenWidget.ProgressAgreesWithActiveToken` | components/home/ActiveTokenWidget.tsx:33 | for a positive token and a non-negative served token, the widget's progress equals the live screen's |
| `ActiveTokenWidget.EstimateAgreesWithTotalWait` | components/home/ActiveTokenWidget.tsx:36 | with a non-zero average wait, the widget's estimate equals the live screen's total wait |
| `QueueVisualizer.VisualizerProgress` | components/ui/QueueVisualizer.tsx:16 | the visualizer's progress always lies in [0, 1] |
| `QueueVisualizer.Ahead` | components/ui/QueueVisualizer.tsx:27 | never negative; 0 iff the served token has reached the user's. While it has not passed the user's token, it is exactly `userToken - serving` |
| `QueueVisualizer.Render` | components/ui/QueueVisualizer.tsx:15-38 | the compact layout is chosen iff `compact` is set. Both layouts show `VisualizerProgress` of the two tokens, in [0, 1]. The compact one shows the `Ahead` count, 0 iff the served token has reached the user's; the full one shows the served token, the user's token and the estimated wait as given |
| `QueueVisualizer.LayoutsShareProgress` | components/ui/QueueVisualizer.tsx:16-38 | the compact and full layouts show the same progress |
| `QueueVisualizer.ProgressAgreesWithWidget` | components/ui/QueueVisualizer.tsx:16 | clamping in the other order gives the same progress as the home widget, for every input |
| `QueueVisualizer.AheadAgreesWithWidget` | components/ui/QueueVisualizer.tsx:27 | until the served token passes the user's, the clamped count equals the widget's raw `tokensAhead` |
| `Data.FirstIndexOf` | lib/data.ts:221 | the scan stops at the first doctor of the clinic: none before it has that clinic, and the one it stops on has it (or the scan runs off the end) |
| `Data.GetClinicDoctor` | lib/data.ts:220-222 | returns nothing iff no doctor has that clinic. A returned doctor has that `clinicId` and is the first such doctor in the table |
| `Data.FirstIndexOfUnique` | lib/data.ts:221 | when no earlier doctor shares a doctor's clinic, the scan for that clinic stops at that doctor |
| `Data.ListedDoctor` | lib/data.ts:126-222 | every doctor of the table is the one found for its own clinic: clinics 1 to 6 each get their listed doctor |
| `Data.ClinicDoctors` | lib/data.ts:126-222 | clinic 3's doctor is Dr. Priya Sharma; clinic 7 has none |
| `Data.GetQueueBadge` | lib/data.ts:224-232 | "Fast Moving" iff the length is under 5; "High Wait" iff over 10; "Moderate" iff from 5 to 10 |
| `Data.BadgeMonotone` | lib/data.ts:224-232 | a longer queue never gets a faster tier |
| `Data.BadgeBoundaries` | lib/data.ts:224-232 | 3 is fast, 5, 7 and 10 are moderate, 12 is high |
| `Clinics.GetStatus` | app/clinics.tsx:87-91 | success iff under 15 minutes; live iff 15 to 59; alert iff 60 or more |
| `Clinics.DecimalString` | app/clinics.tsx:95 | the template literal's digits: non-empty, all decimal digits, denoting exactly the number, with no leading zero (a leading `0` iff the number is 0) |
| `Clinics.GetWaitLabel` | app/clinics.tsx:93-97 | `<15m` iff under 15; `1h+` iff 60 or more; otherwise `~` followed by the minutes in decimal and `m`, whose digits denote exactly the minutes |
| `Clinics.WaitLabelAgreesWithStatus` | app/clinics.tsx:87-97 | the label's tier and the status's tier always agree |
| `Clinics.ToLower` | app/clinics.tsx:106-108 | `toLowerCase` keeps the length and lowers each ASCII capital, leaving every other character as it is |
| `Clinics.Includes` | app/clinics.tsx:106-108 | `includes`: a text that starts with the query includes it, and a text that includes the query is at least as long as it |
| `Clinics.IncludesIffOccurs` | app/clinics.tsx:106-108 | the search test holds exactly when the query occurs at some position of the text |
| `Clinics.MatchesSearch` | app/clinics.tsx:106-108 | a clinic matches iff the lowered query occurs somewhere in its lowered name, doctor or specialty; the empty query matches every clinic |
| `Clinics.ServiceTag` | app/clinics.tsx:113-119 | a chip names a service tag iff it is one of the seven service chips General, Dental, Skin, Cardio, Pediatric, Lab Tests, Orthopedic |
| `Clinics.Keep` | app/clinics.tsx:105-125 | only search matches are kept. A service chip keeps the matches offering its tag, "Open Now" the matches tagged so, "Wait < 30m" the matches waiting under 30 minutes, and every other chip every match |
| `Clinics.FilteredClinics` | app/clinics.tsx:105-126 | the result keeps the list's order and leaves clinics out but adds none. Every clinic in it passes the filter predicate, and every clinic that passes is kept as many times as it occurs in the list, while one that fails occurs zero times |
| `Clinics.FilteredAllClinics` | app/clinics.tsx:105-110 | the shown list keeps the order of `ALL_CLINICS`, and each clinic in it has a name, doctor or specialty containing the query, ignoring case |
| `Clinics.ServiceTags` | app/clinics.tsx:113-119 | the seven service chips map to dermatology, cardiology, pediatrics, lab, orthopedics, general and dental. "All" is the one chip the filter does not name |
| `Clinics.ServiceFilterExact` | app/clinics.tsx:113-119 | a service chip keeps exactly the search matches whose services include its tag |
| `Clinics.WaitFilterExact` | app/clinics.tsx:123 | "Wait < 30m" keeps exactly the search matches waiting under 30 minutes |
| `Clinics.OpenNowFilterExact` | app/clinics.tsx:122 | "Open Now" keeps exactly the search matches tagged "Open Now" |
| `Clinics.EmptyQueryKeepsAll` | app/clinics.tsx:125 | with an empty query, "All" (or any unrecognised chip) keeps the whole list, unchanged |
| `SmartBookingSheet.BookingSheet.constructor` | components/booking/SmartBookingSheet.tsx:51-53 | the sheet opens at step 1, with patient "Me" and the car mode (20 min) |
| `SmartBookingSheet.BookingSheet.SelectPatient` | components/booking/SmartBookingSheet.tsx:57-110 | the patient cards are shown only at step 1: a press there sets the patient, a press elsewhere is refused; the step and the travel mode never change |
| `SmartBookingSheet.BookingSheet.SelectTravelMode` | components/booking/SmartBookingSheet.tsx:62-142 | the travel cards are shown only at step 2: a press there sets the mode, a press elsewhere is refused; the step and the patient never change |
| `SmartBookingSheet.BookingSheet.Next` | components/booking/SmartBookingSheet.tsx:123-157 | Next exists only at steps 1 and 2 and goes 1→2, 2→3. The step stays in 1..3 and the selections are kept |
| `SmartBookingSheet.BookingSheet.Back` | components/booking/SmartBookingSheet.tsx:156-187 | Back exists only at steps 2 and 3 and goes 2→1, 3→2. The selections are kept |
| `SmartBookingSheet.BookingSheet.Confirm` | components/booking/SmartBookingSheet.tsx:67-71 | Confirm exists only at step 3. It emits the selected patient and mode and returns to step 1, keeping the selections |
| `SmartBookingSheet.BookingSheet.Close` | components/booking/SmartBookingSheet.tsx:73-76 | from any step, returns to step 1 and keeps the selections |
| `SmartBookingSheet.ConfirmedChoices` | components/booking/SmartBookingSheet.tsx:57-76 | a Confirm pressed at step 1 emits nothing (the `early` result), and going through the three steps confirms exactly the patient and mode chosen on the way |

## Left out

- The timer's lifecycle. The model leaves out `setInterval`/`clearInterval` and the effect that re-creates the timer whenever `servingToken` changes (app/active-token.tsx:74-85). The tick is the explicit method `ActiveToken.Tick`. It reads the current `servingToken`, which is what the re-created timer's closure holds.
- React scheduling. `setPastBookings` runs inside a state updater. Each store operation is modelled as one atomic step.
- Context plumbing. The model leaves out `QueueProvider`, `useMemo`, and the error `useQueue` throws outside a provider (lib/queue-context.tsx:58-79).
- Presentation. Rendering, styles, animations, haptics, navigation, the `Alert` confirmation dialogs, and the banner titles are UI work or foreign calls. So are the `onClose`/`onConfirm` callbacks of the booking sheet.
- Floating point. JavaScript numbers are doubles. The model uses unbounded integers and exact ratios, so rounding error in `servingToken / tokenNumber` and in `Math.round` is not modelled.
- `ActiveToken.Progress`: requires `tokenNumber != 0` when somebody is ahead. At that input the source computes minus infinity, which is not a number the model has.
- `ActiveTokenWidget.WidgetProgress`, `QueueVisualizer.VisualizerProgress`: require that the served token and the user's token are not both 0. At 0/0 the source gets NaN, which the model has no value for. A non-zero value divided by 0 is modelled, clamped to 1 or 0 as in the source.
- `ActiveTokenWidget.EstimatedMins`: `avgWaitTime || 5` also replaces NaN. The model has no NaN.
- Case folding. `toLowerCase` is modelled for ASCII letters only; Unicode case mapping is not modelled.
- Unused mock data. The `clinics`, `categories`, `user` and `transportModes` tables of lib/data.ts are left out, and so are the doctors' ratings, fees and slots: no core function reads them. Only `clinicId`, `id`, `name` and `specialty` are kept for `getClinicDoctor`.
- Other files. The other screens and components hold no queue logic (appointments, notifications, search, layouts, success overlay, buttons, badges, grids, colours, styles). `getColWidth` is screen-width layout arithmetic.
