# Beach rental client — a Dafny model

This project models the browser client of a beach-equipment rental stand. The stand
rents beds, stand-up paddle boards (SUP) and snorkel sets. The client is a React
application written in TypeScript.

The model covers the client's rental logic:

- **Views.** Which rentals each view lists: `getActiveRentalsByType` and the filters of the
  beds and SUP tabs.
- **Requests.** The create and update requests the tab forms, the new-rental wizard and a
  rental card send, and how each fills in missing fields (`x || default`).
- **Wizard.** The three-step new-rental wizard of the page layout, as a state machine.
- **Prices.** The price rules the client displays: the shown price `finalPrice || basePrice`,
  the SUP unit price, and the card's price string with its discount suffix.
- **Daily summary.** The totals the summary panel folds out of the rental list, and how it
  reads the server's answer to a day reset.
- **Timer.** The countdown of an active rental: seconds left, the warning, the expiry and the
  `mm:ss` text.

## How the code is modelled

Pure code is modelled as functions with lemmas about them. Component state is modelled as
classes whose methods change their fields: a tab's dialog state, the wizard, a card's edit
dialog and the timer.

JavaScript truthiness is written out explicitly. `x || d` is `NumOr`, `OptNumOr`,
`JsNumberOr` or `OptStrOr` in `Types`: `undefined`, `0`, `NaN` and `''` fall back to the
default. Timestamps are integer milliseconds, and money and counts are integers.

`String(n)` and `padStart` are modelled as decimal rendering in `Text`. That module also has
readers, so that each displayed text can be shown to read back as the number it was made
from.

## Notes on the code's behaviour

- **The timer warning never fires in the last minute.** It fires only while
  `floor(secondsLeft / 60)` is between 1 and 10 (Timer.tsx:41-42), so `Timer.WarningDue`
  holds exactly for 60 ≤ seconds left < 660.
- **Updates to ended rentals are not checked by the client.** The client sends the four
  editable fields of an update without checking whether the rental has ended. Any refusal
  happens on the server, which is not part of this model.

## Model

| member | source | states |
|---|---|---|
| Text.NatToString | client/src/components/Timer.tsx:62 | `String(n)` of a non-negative integer is a non-empty digit string, one digit exactly below 10, with no leading zero except for 0 itself |
| Text.IntToString | client/src/components/RentalCard.tsx:53-55 | `String(i)` of any integer: digits, preceded by a minus sign exactly when `i` is negative |
| Text.ParseNatToString | client/src/components/Timer.tsx:62 | the digits of `n` read back as `n` |
| Text.ParseIntToString | client/src/components/RentalCard.tsx:53-55 | the text of any integer, signed or not, reads back as that integer |
| Text.Repeat | client/src/components/Timer.tsx:62 | `k` copies of the pad character |
| Text.PadStart | client/src/components/Timer.tsx:62 | `padStart`: the result is `max(|s|, len)` long, ends with `s`, and everything before `s` is the pad character |
| Text.ParseNatLeadingZero | client/src/components/Timer.tsx:62 | one leading zero does not change the value of a digit string |
| Text.ParseNatLeadingZeros | client/src/components/Timer.tsx:62 | any number of leading zeros does not change the value of a digit string |
| Text.ParsePadded | client/src/components/Timer.tsx:62 | a numeral padded with zeros is still all digits and keeps its value |
| Filtering.Filter | client/src/hooks/useRentals.ts:53 | `Array.filter`: never longer than the input; contains exactly the input's elements that the callback accepts |
| Filtering.FilterMultiplicity | client/src/hooks/useRentals.ts:53 | `Array.filter` keeps each accepted element as many times as the input has it and drops every other element |
| Filtering.FilterIsSubsequence | client/src/hooks/useRentals.ts:53 | a filtered list keeps the input's order: it is a subsequence of it |
| Filtering.SubsequenceDropHead | client/src/hooks/useRentals.ts:53 | a subsequence of a list's tail is a subsequence of the list |
| Filtering.FilterAppend | client/src/components/DailySummary.tsx:83-103 | filtering distributes over concatenation |
| Filtering.FilterSplit | client/src/components/tabs/BedsTab.tsx:32-42 | two disjoint filters that together cover a third split its result, element for element, with multiplicities |
| Filtering.FilterSameKeep | client/src/components/tabs/SupsTab.tsx:37-47 | filters whose callbacks agree on every value give the same list |
| Pricing.ShownPrice | client/src/components/tabs/BedsTab.tsx:134 | `finalPrice \|\| basePrice`: the final price when set and non-zero, the base price otherwise |
| Pricing.SupUnitPrice | client/src/components/tabs/SupsTab.tsx:134 | the SUP unit price is 60 exactly for a 30-minute rental and 100 in every other case |
| Pricing.ItemsShown | client/src/components/tabs/SupsTab.tsx:128 | `numItems \|\| 1`: never 0, the stored count when it is non-zero, 1 otherwise |
| UseRentals.ActiveRentalsByType | client/src/hooks/useRentals.ts:52-54 | lists exactly the rentals of the type with no end time, in list order |
| UseRentals.DistinctTypesDisjoint | client/src/hooks/useRentals.ts:52-54 | no rental is listed under two different types |
| Tabs.TabRentals | client/src/components/tabs/BedsTab.tsx:32-42 | a tab lists exactly its type's rentals that are active (or ended, in the completed view), in list order |
| Tabs.ViewsPartition | client/src/components/tabs/BedsTab.tsx:32-42 | the active and the completed view split the type's rentals between them: disjoint, and together every one of them as often as in the list |
| Tabs.ActiveViewIsActiveByType | client/src/components/tabs/SupsTab.tsx:37-47 | a tab's active view is the hook's `getActiveRentalsByType` list |
| Tabs.ActionsFollowView | client/src/components/tabs/BedsTab.tsx:107-155 | every card of the active view shows the timer and the edit and end buttons; no card of the completed view does |
| Tabs.UpdateFromEditForm | client/src/components/tabs/BedsTab.tsx:63-80 | no request without a selected rental or with an empty name; otherwise the selected id with the name, the notes or '', the discount or 0, and the form's payment method or the rental's own; nothing else is patched |
| Tabs.EndRequest | client/src/components/tabs/BedsTab.tsx:150 | `rental.id && endRental.mutate(rental.id)`: the end request carries the rental's id, and a rental with id 0 cannot be ended |
| BedsTab.NewRentalRequest | client/src/components/tabs/BedsTab.tsx:44-61 | no request without a name; otherwise a BED rental with the number of people or 1, the notes or '', the payment method or CASH, and no duration or item count |
| BedsTab.BedsTabState.constructor | client/src/components/tabs/BedsTab.tsx:27-30 | nothing selected, the edit dialog closed, the active view shown |
| BedsTab.BedsTabState.FilteredRentals | client/src/components/tabs/BedsTab.tsx:32-42 | the bed rentals of the current view, exactly |
| BedsTab.BedsTabState.SetFilter | client/src/components/tabs/BedsTab.tsx:85-93 | `value && setFilter(value)`: clicking the selected button again keeps the view |
| BedsTab.BedsTabState.StartEdit | client/src/components/tabs/BedsTab.tsx:136-146 | editing an active card selects it and opens the edit dialog |
| BedsTab.BedsTabState.CloseEditDialog | client/src/components/tabs/BedsTab.tsx:200-230 | cancel closes the edit dialog and keeps the selection and the view |
| BedsTab.BedsTabState.SubmitNewRental | client/src/components/tabs/BedsTab.tsx:44-61 | sends `NewRentalRequest` of the form; the new-rental dialog is never open |
| BedsTab.BedsTabState.SubmitUpdate | client/src/components/tabs/BedsTab.tsx:63-80 | sends `UpdateFromEditForm` for the selected rental and changes no state, so the edit dialog stays open |
| SupsTab.NewRentalRequest | client/src/components/tabs/SupsTab.tsx:49-68 | no request without a name; otherwise a SUP rental with duration 30 exactly when the form says '30' and 60 otherwise, the item count or 1, the notes or '', the payment method or CASH, and no number of people |
| SupsTab.CreatedUnitPrice | client/src/components/tabs/SupsTab.tsx:56 | a SUP created from the tab is shown at unit price 60 exactly when its form asked for half an hour |
| SupsTab.CardFiguresOf | client/src/components/tabs/SupsTab.tsx:128-147 | a SUP card shows the stored item count when non-zero and 1 otherwise, the unit price 60 for 30 minutes and 100 otherwise, and the non-zero final price or else the base price |
| SupsTab.SupsTabState.constructor | client/src/components/tabs/SupsTab.tsx:32-35 | nothing selected, the edit dialog closed, the active view shown |
| SupsTab.SupsTabState.FilteredRentals | client/src/components/tabs/SupsTab.tsx:37-47 | the SUP rentals of the current view, exactly |
| SupsTab.SupsTabState.SetFilter | client/src/components/tabs/SupsTab.tsx:93-101 | `value && setFilter(value)`: clicking the selected button again keeps the view |
| SupsTab.SupsTabState.StartEdit | client/src/components/tabs/SupsTab.tsx:149-159 | editing an active card selects it and opens the edit dialog |
| SupsTab.SupsTabState.CloseEditDialog | client/src/components/tabs/SupsTab.tsx:236-266 | cancel closes the edit dialog and keeps the selection and the view |
| SupsTab.SupsTabState.SubmitNewRental | client/src/components/tabs/SupsTab.tsx:49-68 | sends `NewRentalRequest` of the form; the new-rental dialog is never open |
| SupsTab.SupsTabState.SubmitUpdate | client/src/components/tabs/SupsTab.tsx:70-88 | sends `UpdateFromEditForm` for the selected rental; the edit dialog closes exactly when a request was sent |
| DailySummary.Contribution | client/src/components/DailySummary.tsx:84-95 | one rental adds its shown price to revenue, its discount to discounts, one to the total and one to the count of its own type only |
| DailySummary.ComputeTotals | client/src/components/DailySummary.tsx:83-103 | the reduce over all rentals: `Zero` for none, the total count is the list's length, and the per-type counts are non-negative and add up to it |
| DailySummary.TotalsSnoc | client/src/components/DailySummary.tsx:83-103 | one more rental at the end adds its contribution |
| DailySummary.TotalsAppend | client/src/components/DailySummary.tsx:83-103 | the totals of two lists put together are the sums of their totals |
| DailySummary.TotalsSingle | client/src/components/DailySummary.tsx:83-103 | the totals of one rental are its contribution |
| DailySummary.TotalsPermutation | client/src/components/DailySummary.tsx:83-103 | the totals do not depend on the order of the rentals |
| DailySummary.PlusRearrange | client/src/components/DailySummary.tsx:88-95 | adding contributions can be reordered |
| DailySummary.TypeCount | client/src/components/DailySummary.tsx:92-94 | the count for a type is the number of rentals of that type |
| DailySummary.TypeCounts | client/src/components/DailySummary.tsx:92-94 | the bed, SUP and snorkel counts are the lengths of the per-type filters |
| DailySummary.RevenueOfOne | client/src/components/DailySummary.tsx:85-90 | a rental counts at its non-zero final price, or else at its base price, and adds its discount |
| DailySummary.EndingKeepsContribution | client/src/components/DailySummary.tsx:83-95 | the end time plays no part: ending a rental without a (non-zero) final price leaves its contribution unchanged |
| DailySummary.ResetOutcome | client/src/components/DailySummary.tsx:42-62 | a reset fails exactly when `success` is false, with the server's error or 'Reset failed'; on success the deleted count is `details?.rentalsDeleted \|\| 0` |
| DailySummary.ResetNotice | client/src/components/DailySummary.tsx:63-78 | the banner is an error exactly when the reset failed |
| DailySummary.NoticeNamesCount | client/src/components/DailySummary.tsx:62-63 | the success banner is the fixed prefix, the deleted count and the fixed suffix, and the count reads back out of it |
| Timer.DefaultDuration | client/src/components/Timer.tsx:12-16 | 60 minutes for a bed or a SUP, 120 exactly for snorkels |
| Timer.EffectiveDuration | client/src/components/Timer.tsx:29 | `duration \|\| DEFAULT_DURATIONS[type]`: never 0; the given duration when non-zero, the default otherwise |
| Timer.EndTime | client/src/components/Timer.tsx:29-30 | the end is a whole, non-zero number of minutes after the start: the given duration when non-zero, the type's default otherwise |
| Timer.TimeLeft | client/src/components/Timer.tsx:26-34 | the whole seconds before the end, floored; 0 exactly from less than a second before the end onwards |
| Timer.TimeLeftNonIncreasing | client/src/components/Timer.tsx:26-34 | as the clock advances the seconds left never grow, and they stay 0 once the end is reached |
| Timer.WarningDue | client/src/components/Timer.tsx:41-42 | the warning test holds exactly for 60 ≤ seconds left < 660 |
| Timer.Split | client/src/components/Timer.tsx:56-57 | minutes and seconds recombine to the seconds left, with seconds below 60 |
| Timer.ReadDigitsOfDigits | client/src/components/Timer.tsx:62 | the digit reader agrees with the decimal value on digit strings |
| Timer.TwoDigits | client/src/components/Timer.tsx:62 | `String(x).padStart(2, '0')` is at least two digits, exactly two below 100, and reads back as `x` |
| Timer.ClockText | client/src/components/Timer.tsx:62 | the `mm:ss` text of m minutes and s < 60 seconds reads back as 60·m + s |
| Timer.Display | client/src/components/Timer.tsx:56-62 | the displayed `mm:ss` reads back as exactly the seconds left, for any number of minutes |
| Timer.ReadClockParts | client/src/components/Timer.tsx:62 | `mm:ss` reads back as minutes times 60 plus seconds |
| Timer.DisplayColor | client/src/components/Timer.tsx:61 | the countdown is in the error colour exactly below ten minutes |
| Timer.TimerState.constructor | client/src/components/Timer.tsx:21-23 | before the first tick: no time left, no warning, not expired |
| Timer.TimerState.Tick | client/src/components/Timer.tsx:36-51 | a tick stores the seconds left, calls the warning only when it is due and not already showing, and raises the expired flag, never lowering it |
| Timer.TimerState.DismissWarning | client/src/components/Timer.tsx:64-67 | closing the snackbar clears the warning and nothing else |
| Timer.TimerState.Rendered | client/src/components/Timer.tsx:56-62 | the rendered text reads back as the stored seconds left; the colour is the error colour exactly below 600 seconds |
| Layout.DurationOptionsPriced | client/src/components/Layout/index.tsx:57-60 | the select offers 30 and 60 minutes only, and each label ends with the SUP unit price of its duration |
| Layout.InitialFormData | client/src/components/Layout/index.tsx:45-55 | no category, one person, empty name and notes, CASH, no discount or extra time, 60 minutes and one item |
| Layout.NextDisabled | client/src/components/Layout/index.tsx:369-373 | Next is disabled only on the first two steps: on the first exactly without a category, and on the details step exactly when the form could not be submitted |
| Layout.SubmitRequest | client/src/components/Layout/index.tsx:87-101 | no request without a category or a name; otherwise the form's category, people, name, notes and payment method, with duration and item count exactly for a SUP |
| Layout.NextEnabledKeepsInvariant | client/src/components/Layout/index.tsx:369-373 | Next is never disabled on the payment step, and moving on while it is enabled keeps the step invariant |
| Layout.LastStepSubmits | client/src/components/Layout/index.tsx:87-88 | on the last step of a well-formed wizard the request is always sent |
| Layout.InitialFormBlocked | client/src/components/Layout/index.tsx:45-55 | the initial form is well formed on step 0, Next is disabled there, and it cannot be submitted |
| Layout.Wizard.constructor | client/src/components/Layout/index.tsx:64-66 | dialog closed, first step, initial form |
| Layout.Wizard.Open | client/src/components/Layout/index.tsx:325 | the new-rental button opens the dialog and keeps the step and the form |
| Layout.Wizard.HandleClose | client/src/components/Layout/index.tsx:81-85 | closing resets the step to 0 and the form to the initial form |
| Layout.Wizard.HandleSubmit | client/src/components/Layout/index.tsx:87-101 | sends `SubmitRequest` of the form and resets the wizard when a request is sent; otherwise changes nothing |
| Layout.Wizard.HandleNext | client/src/components/Layout/index.tsx:69-75 | on the last step it submits and resets, and a SUP request it sends has a duration of 30 or 60; on any other step it moves one step on and keeps the form |
| Layout.Wizard.HandleBack | client/src/components/Layout/index.tsx:77-79 | one step back, offered only past the first step, so the step stays in range |
| Layout.Wizard.HandleTypeSelect | client/src/components/Layout/index.tsx:103-106 | a category card records the category and moves to the details step |
| Layout.Wizard.SetCustomerName | client/src/components/Layout/index.tsx:210 | the name field changes only the name |
| Layout.Wizard.SetNumPeople | client/src/components/Layout/index.tsx:221 | the people field changes only the number of people |
| Layout.Wizard.SetDuration | client/src/components/Layout/index.tsx:232 | the duration select sets 30 or 60 minutes and nothing else |
| Layout.Wizard.SetNumItems | client/src/components/Layout/index.tsx:249 | the item field changes only the item count |
| Layout.Wizard.SetNotes | client/src/components/Layout/index.tsx:267 | the notes field changes only the notes |
| Layout.Wizard.SetDiscount | client/src/components/Layout/index.tsx:276 | the discount field changes only the discount |
| Layout.Wizard.SetPaymentMethod | client/src/components/Layout/index.tsx:287 | the payment radio changes only the payment method |
| Layout.CompleteRental | client/src/components/Layout/index.tsx:69-106 | choosing a category, typing a name and pressing Next twice sends a request for that category and name, with a duration exactly for a SUP, and leaves the wizard closed and reset |
| RentalCard.PriceDisplay | client/src/components/RentalCard.tsx:51-56 | the price string starts with ₪ and contains the " (-discount)" suffix exactly when the final price is unset or 0 and the discount is non-zero |
| RentalCard.PriceDisplayRoundTrip | client/src/components/RentalCard.tsx:51-56 | the price string reads back as the non-zero final price with no discount, or else as the base price and the discount |
| RentalCard.DisplayName | client/src/components/RentalCard.tsx:65 | a named rental shows its name; a nameless one shows the placeholder |
| RentalCard.PaymentIcon | client/src/components/RentalCard.tsx:67-71 | the money icon exactly for a cash rental |
| RentalCard.PeopleLineAsWritten | client/src/components/RentalCard.tsx:82-86 | as written, the line is never empty: the labelled count for a non-zero count, the count itself otherwise |
| RentalCard.PeopleLineShowsZero | client/src/components/RentalCard.tsx:82-86 | as written, a rental with no people shows a bare "0" |
| RentalCard.PeopleLine | client/src/components/RentalCard.tsx:82-86 | the intended line: empty exactly when there are no people, otherwise the labelled count |
| RentalCard.PeopleLineAgrees | client/src/components/RentalCard.tsx:82-86 | the written and the intended line differ exactly for a zero count |
| RentalCard.InitialEdit | client/src/components/RentalCard.tsx:30-33 | the dialog starts from the rental's name, its notes or '', its discount and its payment method |
| RentalCard.CardEditor.constructor | client/src/components/RentalCard.tsx:29-33 | the dialog closed, with the initial fields of the rental |
| RentalCard.CardEditor.OpenEdit | client/src/components/RentalCard.tsx:73 | the edit button opens the dialog with the fields as they are |
| RentalCard.CardEditor.CancelEdit | client/src/components/RentalCard.tsx:162 | cancel closes the dialog and keeps the edited fields |
| RentalCard.CardEditor.SetCustomerName | client/src/components/RentalCard.tsx:120 | the name field changes only the name |
| RentalCard.CardEditor.SetNotes | client/src/components/RentalCard.tsx:130 | the notes field changes only the notes |
| RentalCard.CardEditor.SetDiscount | client/src/components/RentalCard.tsx:139 | the discount field changes only the discount |
| RentalCard.CardEditor.SetPaymentMethod | client/src/components/RentalCard.tsx:147 | `value && setPaymentMethod(value)`: deselecting keeps the payment method |
| RentalCard.CardEditor.HandleUpdate | client/src/components/RentalCard.tsx:35-43 | all four fields, an empty name included, are sent for the card's rental id, and the dialog closes |
| RentalCard.SaveUnedited | client/src/components/RentalCard.tsx:30-43 | saving without edits sends back the rental's own name, discount and payment method, and its notes or '' |

## Left out

- Server behaviour is not in the client and is not modelled. That covers base and final
  price computation, storing, ending and deleting rentals, and not-found or invalid-state
  errors.
- Fetching, polling, cache invalidation, retries, the page reload after a reset, and
  `setTimeout`/`setInterval` scheduling are not modelled. A timer tick is a call of
  `Timer.TimerState.Tick` with the clock reading as a parameter.
- `client/src/App.tsx`, `client/src/main.tsx`, the clock component, the HTTP client
  configuration, `date-fns` time formatting and all MUI markup are not part of this model.
- Numbers are integers. Fractional amounts and durations are not modelled, and neither is
  JavaScript's exponent notation for very large numbers. `NaN` is modelled only for the tab
  forms' `Number(...)` fields. The wizard's and the card's number inputs always give a
  number.
- Timestamps are integer milliseconds. The ISO strings the server sends and an empty-string
  `endTime` are not modelled.
- BedsTab.BedsTabState.SubmitNewRental: the new-rental dialogs of both tabs are never opened
  by their own code, so the invariant `!isNewRentalDialogOpen` holds throughout. The tab
  forms that would submit them are modelled as functions of their fields.
- Layout.Wizard.HandleNext: requires the Next button to be enabled, because the button
  cannot be pressed otherwise.
- Layout.Wizard.SetCustomerName and the other field setters require the step on which their
  field is shown, because the field cannot be edited on any other step.
- Layout.SubmitRequest: the wizard's discount and extra time are kept in the form but are
  never sent, so they do not appear in the request.
- RentalCard.CardEditor.constructor: React takes a card's initial edit fields from the
  rental it was first rendered with, and keeps them across later renders. The model takes
  the rental once, when the card is built.
- Timer.TimerState.Tick: React's stale closures are not modelled. The interval is re-created
  whenever the warning or expiry state changes, so each tick sees the current state.
- The warning snackbar's auto-hide is modelled only as `DismissWarning`. Once it hides, the
  next tick inside the warning window raises the warning again.
- The snorkel tab is imported by the layout but is not part of this model.

## Findings

| source | as written | input that shows it | evidently intended | confidence | as-written member | corrected member |
|---|---|---|---|---|---|---|
| client/src/components/RentalCard.tsx:82-86 | `{rental.numPeople && (<line>)}` renders the number itself when it is falsy | a rental with `numPeople = 0` shows a stray "0" on its card | no people line at all for a zero count | medium, not executed | RentalCard.PeopleLineAsWritten | RentalCard.PeopleLine |
