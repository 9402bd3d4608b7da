# Waste Wise front end — a verified model

Waste Wise is a browser demo for booking waste pickups. A user signs in, fills in a three-step
form (waste type and weight, a drop-off site chosen on a map, review and payment), pays
through a demo modal or the Midtrans Snap widget, and earns points that the home page shows
as "your contribution". This project models the logic under that UI in Dafny and proves what
the code promises about it.

One module per source file:

- `Directory` (js/map.js) holds the sixteen-site table, the marker list that `renderLocations` rebuilds, and the category filter.
- `MapModal` (js/map-modal.js) holds the location picker modal:
  - the fallback table of eight sites, its marker list and filter;
  - marker colours and icons, `capitalizeFirst`;
  - the selection handed to the cost estimator.
- `Estimator` (js/action.js) covers:
  - the closure variables `selectedLocation`, `userLocation` and `estimatedCost`;
  - the cost formula Rp 5000 + Rp 2000/km + Rp 1000/kg, rounded;
  - `checkLoginStatus`.
- `Storage` holds the two `localStorage` entries the pages use. One is the session's user record under `wastewise_user`, the other the last contribution under `wastewise_last_contribution`. An entry is absent, holds a record, holds text `JSON.parse` rejects, or holds text that is empty or parses to a falsy value (`null`, `false`, `0`, `""`).
- `Auth` (js/auth.js) covers login, registration, logout, the session reads, the additive points credit and the e-mail validator.
- `Payment` (js/payment.js) covers:
  - the method table and `validatePaymentMethod`;
  - the `paymentState` object;
  - the mock and Midtrans paths and `processPayment`;
  - transaction ids.
- `Community` (js/community-impact.js) covers the three-way choice of the contribution panel, the lenient storage reads, and the label and emoji lookups.
- `Form` (js/form.js) covers:
  - the step counter with its guarded `nextStep` and unguarded `prevStep`;
  - the validators and the review summary;
  - the impact calculation that credits points;
  - the form side of the payment.

Code that updates state in place is modelled as classes whose methods state the whole new state:

- `MapView`, `LocationModal`, `CostEstimator`, `PaymentGateway`, `FormController` and `LocalStorage`.
- Loops stay loops with invariants: the marker rebuilds, the filters, the marker lookup, the stepper marking and the radio scan.

Pure code is functions, with lemmas relating them.

Inputs the program reads from the environment become parameters:

- the great-circle `distance`, which is used only when a user position is known;
- `Date.now()` as `clock`/`now: nat` and `new Date().toISOString()` as `now: string`;
- `Math.random()` as a `draw` in [0, 1);
- what the user does in the demo modal (`DemoAction`);
- how the token request and the Snap widget end (`SnapEvent`);
- whether page elements exist.

A promise is represented by how it ends (`Settlement`): fulfilled, rejected, or never settled.

Points, weights and CO₂ figures are exact reals. Costs are integers, and `Math.round(x)` is
`floor(x + 0.5)`.

Where the code and the project's documentation disagree, the model follows the code:

- `processPayment` rejects only an empty method code. Unrecognised codes go to the Midtrans path (`Payment.UnknownMethodReachesGateway`).
- `paymentState` is never reset between attempts. A new attempt keeps the previous `transactionId` and `status` unless it sets them (`Payment.FailedAttemptKeepsEarlierResult`).
- A pending Snap payment fulfils with true, so the form credits points for it (`Payment.PendingLeavesStatus`).
- js/map.js declares `allLocations` with `const` inside its immediately invoked function (js/map.js:1-255), so the table never becomes `window.allLocations`. So the modal's list always comes from its fallback table once the two pages are combined. `MapModal.ModalLocations` keeps the global as an input so both cases are stated.

## Model

| member | source | states |
|---|---|---|
| Directory.AllLocations | js/map.js:6-152 | sixteen sites with ids 1..16 in order, each of category plastik, elektronik or organik |
| Directory.AllLocationsDistinctIds | js/map.js:6-152 | the ids of the table are pairwise distinct |
| Directory.MarkersFor | js/map.js:178-183 | rendering gives one marker per location, in order, carrying its type and data, each added to the map |
| Directory.Filtered | js/map.js:214-220 | a filter sets each marker's visibility to "filter is 'all' or equals its type" and changes nothing else |
| Directory.FilterAllShowsEverything | js/map.js:214-216 | the 'all' filter shows every marker |
| Directory.FilterCategoryShowsExactlyThatCategory | js/map.js:214-220 | any other filter shows exactly the markers of that category and keeps their data |
| Directory.FilterLastWins | js/map.js:208-222 | applying one filter after another is the same as applying only the second |
| Directory.MapView.constructor | js/map.js:3 | the marker list starts empty |
| Directory.MapView.RenderLocations | js/map.js:170-183 | without the list element nothing changes; otherwise the old markers are dropped and the list is exactly one marker per location, in order |
| Directory.MapView.ApplyFilter | js/map.js:208-222 | the click handler leaves the markers as `Filtered` of the old ones, in place |
| MapModal.DefaultLocations | js/map-modal.js:243-310 | eight sites with ids 1..8 in order |
| MapModal.DefaultsArePrefixOfAllLocations | js/map-modal.js:243-310 | the fallback table is exactly the first eight sites of the map page's table; its ids are distinct |
| MapModal.ModalLocations | js/map-modal.js:150-156 | the modal lists the global table when it is set and non-empty, and the fallback table otherwise; never an empty list |
| MapModal.CapitalizeFirst | js/map-modal.js:409-411 | length is preserved; the first character is upper-cased and the rest kept; the empty string maps to itself |
| MapModal.CapitalizeFirstIdempotent | js/map-modal.js:409-411 | capitalising twice equals capitalising once |
| MapModal.MarkerStyleFor | js/map-modal.js:200-213 | plastik gets #3498db with the lotion bottle, elektronik #e74c3c with the laptop, organik #2ecc71 with the leafy green; any other type #14a085 with the trash can |
| MapModal.MarkerColorsDistinct | js/map-modal.js:200-213 | different known categories get different colours |
| MapModal.FindMarkerById | js/map-modal.js:333 | the lookup returns None exactly when no marker has the id, and otherwise the first marker that has it |
| MapModal.LocationModal.constructor | js/map-modal.js:9-11 | no map, no markers, no selection |
| MapModal.LocationModal.RenderLocations | js/map-modal.js:146-176 | without the container or the map nothing changes; otherwise the markers are exactly one per listed location (global or fallback), in order |
| MapModal.LocationModal.InitMap | js/map-modal.js:118-141 | with Leaflet and the map container the map becomes ready and the locations are rendered; otherwise nothing changes |
| MapModal.LocationModal.FilterLocations | js/map-modal.js:396-404 | each marker is shown exactly when the filter is 'all' or its type, nothing else changes |
| MapModal.LocationModal.SelectLocation | js/map-modal.js:315-343 | the selection becomes the location; the popup opened is the first marker with its id, as `find` gives, and none exactly when no marker has it |
| MapModal.UpdateFormWithSelectedLocation | js/map-modal.js:348-391 | with the form's location box present the estimator's selection becomes the location and its cost is recomputed; otherwise the estimator is unchanged |
| Estimator.Round | js/action.js:164 | `Math.round` returns the integer within half of its argument, halves rounding up |
| Estimator.Estimate | js/action.js:137-164 | an estimate exists exactly when a site is selected and the weight is positive; it is within 0.5 of 5000 + 2000·distance + 1000·weight, where distance counts only with a known user position |
| Estimator.EstimateWithoutPosition | js/action.js:150-164 | without a user position an integer weight w costs exactly 5000 + 1000·w |
| Estimator.EstimateMonotone | js/action.js:158-164 | more weight or more distance never lowers the estimate, which is at least 5000 |
| Estimator.CheckLoginStatus | js/action.js:7-16 | the page proceeds exactly when `isLoggedIn` holds, i.e. when a session entry exists |
| Estimator.CostEstimator.constructor | js/action.js:45-47 | no selection, no user position, no estimate |
| Estimator.CostEstimator.CalculateCost | js/action.js:137-171 | the estimate becomes `Estimate` of the selection, position and weight field (empty counts as 0); null exactly when no site or weight ≤ 0; nothing else changes |
| Estimator.CostEstimator.SelectLocation | js/action.js:101-127 | `getSelectedLocation` then returns the site, and `getEstimatedCost` the estimate recomputed for it; the user position is kept |
| Estimator.CostEstimator.UpdateUserLocation | js/action.js:129-132 | the position is stored and the estimate recomputed; the selection is kept |
| Auth.ValidateEmailMatchesPattern | js/auth.js:154-157 | the validator accepts exactly the strings matched by `^[^\s@]+@[^\s@]+\.[^\s@]+$` (both directions) |
| Auth.ValidEmailShape | js/auth.js:154-157 | an accepted address has exactly one `@`, which is not at either end, and no white space |
| Auth.NameFromEmail | js/auth.js:40 | the name is the longest `@`-free prefix of the address |
| Auth.ValidEmailHasName | js/auth.js:40 | a valid address yields a non-empty name that, followed by `@` and the domain, rebuilds the address |
| Auth.LoginCheck | js/auth.js:25-33 | login passes exactly with both fields non-empty and a valid address; a missing field is reported exactly when a field is empty, so a filled-in form with a bad address reports the format |
| Auth.RegisterCheck | js/auth.js:62-75 | registration passes exactly with four non-empty fields, matching passwords and at least 6 characters; a missing field is reported exactly when one is empty, a mismatch exactly when all are filled and the passwords differ, and the length only for matching passwords; the address format is never checked |
| Auth.ValidateEmail | js/auth.js:154-157 | an accepted address is at least five characters long, with a non-empty part before its first `@` and at least three characters after it |
| Auth.IsLoggedIn | js/auth.js:118-120 | true exactly when some text is stored under the session key, usable record or not |
| Auth.CurrentUser | js/auth.js:110-113 | no user when not logged in, and exactly when the entry is absent or its text is empty or falsy (null, or the parsed falsy value, which every caller treats as no user); throws exactly on unreadable text; otherwise the stored record |
| Auth.SessionReadsDisagree | js/auth.js:110-120 | `isLoggedIn` is true while `getCurrentUser` gives no user (null or a falsy value) exactly when the stored text is empty or parses to a falsy value |
| Auth.GetUserPoints | js/auth.js:146-149 | 0 whenever `getCurrentUser` is null or the record has no points field, the stored points otherwise; throws exactly when `getCurrentUser` does |
| Auth.Credit | js/auth.js:133-137 | the new points are old points (or 0) plus n; update time and source are stamped; no other field changes |
| Auth.CreditIsAdditive | js/auth.js:125-141 | crediting a then b equals crediting a + b once |
| Auth.LoginUser | js/auth.js:24-56 | succeeds exactly when `LoginCheck` passes; then the session holds a fresh record with 0 points and the name before `@`; otherwise nothing is written |
| Auth.RegisterUser | js/auth.js:61-96 | succeeds exactly when `RegisterCheck` passes; then the session holds the named record with 0 points; otherwise nothing is written |
| Auth.LogoutUser | js/auth.js:101-105 | afterwards `getCurrentUser` is null, `isLoggedIn` false and `getUserPoints` 0; the contribution entry is kept |
| Auth.AddUserPoints | js/auth.js:125-141 | without a session, or with falsy session text, it returns false and writes nothing; with one it returns true and stores the credited record; unreadable text throws |
| Payment.PaymentMethods | js/payment.js:10-16 | the table's keys are exactly the five codes, each entry carries its own code and a non-negative fee |
| Payment.ValidatePaymentMethodAsWritten | js/payment.js:223-225 | as written, the check accepts a non-empty name that is a key of the table or an inherited `Object.prototype` name, so it accepts every code the intended check accepts and more |
| Payment.AsWrittenAcceptsInheritedName | js/payment.js:223-225 | the check as written accepts "toString", which is not a key of the table |
| Payment.ValidatePaymentMethod | js/payment.js:223-225 | accepts exactly transfer, ewallet, creditcard, virtual and mock |
| Payment.ValidatorsDifferOnlyOnInheritedNames | js/payment.js:223-225 | the as-written and the intended checks disagree exactly on names inherited from `Object.prototype` |
| Payment.DecimalString | js/payment.js:240 | a number prints as a non-empty string of decimal digits |
| Payment.DecimalRoundTrip | js/payment.js:240 | reading the printed digits back gives the number |
| Payment.RandomSuffix | js/payment.js:239 | the random part is at most 9999 |
| Payment.GenerateTransactionId | js/payment.js:237-241 | the id reads back as the current time and a suffix of at most 9999 |
| Payment.TransactionIdRoundTrip | js/payment.js:237-241 | parsing `WW-<time>-<suffix>` gives back the time and the suffix |
| Payment.TransactionIdsDistinct | js/payment.js:237-241 | two ids are equal exactly when their times and suffixes are equal |
| Payment.MockPayment | js/payment.js:75-86 | only the confirm button fulfils, with true, after storing a fresh transaction id and setting status success; every other way out leaves the promise unsettled and the state unchanged |
| Payment.MidtransPayment | js/payment.js:91-125 | success and pending fulfil with true; token failure, missing SDK, error and close reject; success stores the result's transaction id and sets status success, and every other event leaves the state unchanged |
| Payment.ProcessOutcome | js/payment.js:51-70 | never rejects; an empty code fulfils false and changes nothing; otherwise the method and the order's cost are recorded, and then: a demo confirm stores the generated id and success, a Snap success on any other code stores the Snap id and success, and a pending, failed or cancelled attempt leaves the id and status as they were |
| Payment.ProcessOutcomeSucceeds | js/payment.js:51-125 | fulfils true exactly on a demo confirmation or a Snap success or pending; never settles exactly on a demo cancel, close or backdrop |
| Payment.MockConfirmRecordsId | js/payment.js:75-86 | a confirmation stores a well-formed id for the current time, marks success, and keeps the order's cost without the method fee |
| Payment.UnknownMethodReachesGateway | js/payment.js:57-65 | an unrecognised non-empty code is recorded and can complete through Snap |
| Payment.FailedAttemptKeepsEarlierResult | js/payment.js:51-70 | `paymentState` is never reset: an attempt that does not fulfil true keeps the previous id and status, and the status ends as success exactly when it already was or the attempt confirmed or succeeded |
| Payment.PendingLeavesStatus | js/payment.js:105-108 | a pending payment fulfils true but leaves status and transaction id as they were |
| Payment.PaymentGateway.constructor | js/payment.js:19-24 | the state starts as cost 0, no method, no id, pending |
| Payment.PaymentGateway.ProcessMockPayment | js/payment.js:75-86 | updates the state and ends as `MockPayment` says |
| Payment.PaymentGateway.ProcessMidtransPayment | js/payment.js:91-125 | updates the state and ends as `MidtransPayment` says |
| Payment.PaymentGateway.ProcessPayment | js/payment.js:51-70 | updates the state and ends as `ProcessOutcome` says |
| Community.ReadEntry | js/community-impact.js:98-119 | the stored user or contribution exactly when a readable record is stored; an absent or unreadable entry gives null |
| Community.ReadUserAgreesWithAuth | js/community-impact.js:98-106 | agrees with the session module's reader where that returns, and gives null where it throws |
| Community.FormatWasteType | js/community-impact.js:142-150 | the four listed types map to their capitalised form, any other text to itself |
| Community.FormatWasteTypeIdempotent | js/community-impact.js:142-150 | formatting a label again changes nothing |
| Community.WasteTypeEmoji | js/community-impact.js:37-43 | the emoji equals the map marker's icon for the type, with the trash can for any other type |
| Community.DisplayUserContribution | js/community-impact.js:12-78 | the login prompt exactly without a readable user, whatever contribution is stored; the empty message exactly with a user but no contribution; otherwise the card shows the stored record |
| Form.ValidateStep1 | js/form.js:81-99 | passes exactly with a type and a weight of at least 1 kg; a missing type is reported exactly when the type is empty, so a given type with a missing or sub-1 kg weight reports the weight |
| Form.StepAfterNext | js/form.js:59-70 | the step grows by exactly 1 or stays; it grows exactly when below the last step and, at step 0, step 1 passes validation and, at step 1, a location is selected |
| Form.StepAfterPrev | js/form.js:72-76 | one back above step 0, unchanged otherwise |
| Form.PrevUndoesNext | js/form.js:59-76 | a `prevStep` after an advancing `nextStep` returns to the same step |
| Form.ReviewNeedsValidInput | js/form.js:59-108 | reaching the review step from step 0 needs a valid first step and a selected site, and the estimate is then at least Rp 6000 |
| Form.Co2Factor | js/form.js:169-171 | 2.5 for plastik, 5 for elektronik, 1 otherwise |
| Form.ImpactOf | js/form.js:165-174 | points are 10 per kg; CO₂ is the weight times the factor, so between the weight and half the points |
| Form.ContributionRecord | js/form.js:184-191 | the saved record carries the type, weight, points and CO₂ of the impact, the time, and the site name when it is given and "Unknown" when it is empty |
| Form.StepperMarks | js/form.js:51-54 | items before the step are completed, the step's item is active, later ones neither |
| Form.PanelFlags | js/form.js:46-49 | only the panel at the step is active |
| Form.SummaryOf | js/form.js:113-126 | the review shows the entered fields, the selected site's name (or "-"), and the cost when it is a non-zero number |
| Form.FirstChecked | js/form.js:130-138 | none exactly when no radio is checked; otherwise the value of the first checked radio |
| Form.CheckedPaymentMethod | js/form.js:133-138 | the loop finds `FirstChecked` |
| Form.OrderOf | js/form.js:146-151 | the order carries the fields and the site name; a missing estimate becomes a total of 0 |
| Form.FormController.constructor | js/form.js:24-40 | starts at step 0 with nothing summarised; step 0 is shown only when the form, its panels and its stepper exist |
| Form.FormController.ShowStep | js/form.js:45-57 | the step becomes the index, only its panel is active, and the stepper is re-marked; nothing else changes |
| Form.FormController.NextStep | js/form.js:59-70 | moves to `StepAfterNext` and shows it; the summary is rewritten exactly on a move onto step 2 |
| Form.FormController.PrevStep | js/form.js:72-76 | moves to `StepAfterPrev` and shows it, with no validation |
| Form.FormController.CompleteForm | js/form.js:13-18 | returns to step 0 |
| Form.FormController.CalculateImpact | js/form.js:165-194 | shows the impact, credits its points once to a logged-in user, and overwrites the last contribution even without a session; an unreadable session throws before anything is saved |
| Form.FormController.ProcessPayment | js/form.js:129-163 | without a checked method nothing happens; otherwise the gateway runs the order (total 0 without an estimate); unless the result is true, step, panels, stepper, summary, impact and storage are unchanged; a true result runs `calculateImpact` (a throw there leaves only the impact figures changed) and then `nextStep`, with its step, display and summary rewrite |

## Left out

- DOM and Leaflet are not modelled: element lookup, `innerHTML`, CSS classes, popups, tiles, `map.locate`, alerts and `window.location` redirects. Only the state they follow is modelled, and the presence of an element is a boolean input where the code branches on it.
- Component loading (`fetch` of HTML fragments) and `setTimeout` delays are not modelled. `MapModal.UpdateFormWithSelectedLocation` is stated as the delayed call itself.
- The Midtrans integration is left out: script injection, `snap.pay` and the token `fetch` are foreign code and network I/O. Their results enter as a `SnapEvent`.
- The haversine distance (js/action.js:173-185) is floating-point trigonometry. The estimate takes the distance as a non-negative input.
- `toFixed` and `toLocaleString` formatting are left out. CO₂ is kept as an exact real rather than a one-decimal string, and costs as integers.
- `getCommunityStats` (js/community-impact.js:124-137) is left out: it is a sine of the current time.
- `Date.now()`, `Math.random()` and `toISOString()` enter as parameters. `calculateImpact` is modelled as reading the clock once for both time stamps.
- server.js is not part of this model: its routes return fixed or echoed JSON.
- js/map.js also assigns `window.selectLocation`, and which assignment wins depends on script order. The js/action.js version is the one modelled.
- The weight field is modelled as a number or empty. Text `Number` turns into `NaN` is left out.
- `MapModal.CapitalizeFirst`: upper-cases ASCII letters only, not the rest of Unicode.
- Lengths are counted in code points, not UTF-16 units.
- `Auth.CurrentUser`: stored text that parses to a truthy value other than a user record (a number, a string, an array) is not modelled. The code would return that value as the user. Stored `false`, `0` or `""` is modelled as no user. The code returns that falsy value rather than null, and every caller (js/auth.js:128, 148, 233) treats it as no user.
- `Form.FormController.ProcessPayment`: a payment attempt is modelled as one atomic step. The form fields and the location name are read once for the whole attempt. The code builds the order on the click (js/form.js:146-151). It re-reads the weight, the type and the location name in `calculateImpact` after the payment promise settles (js/form.js:154-158, 166-167, 190). Overlapping attempts from a second click, which share one payment state (js/payment.js:57-58), are not modelled either.
- `Community.WasteTypeEmoji`: a type equal to an `Object.prototype` name is treated as missing from the emoji table. The code would return the inherited function rather than the trash can.
- `Community.FormatWasteType`: a type equal to an `Object.prototype` name is treated as missing from the table. The code would return the inherited function.
- `Form.FormController.CompleteForm`: `form.reset()` is not modelled, because the form fields are inputs to each operation rather than state.
- `initForm`'s guard against a second call is not modelled. The constructor is the first call.
- The form's `processPayment` assumes js/payment.js and js/auth.js are loaded, i.e. that `window.processPayment` and `window.addUserPoints` exist. `showPaymentSuccess` is UI and is left out.
- `getSelectedLocation`, `getEstimatedCost` and `getPaymentStatus` are plain reads of the state. Their contracts are the ensures of the operations that use them.
- `validateStep2` is a plain test of the selection. Its contract is part of `Form.StepAfterNext`.

## Findings

| source | as written | input that shows it | evidently intended | confidence | as-written member | corrected member |
|---|---|---|---|---|---|---|
| js/payment.js:223-225 | `method && PAYMENT_METHODS[method] !== undefined` also finds properties every object inherits | `validatePaymentMethod("toString")` is truthy though "toString" is no payment method | accept exactly the five codes of the table | not executed | Payment.AsWrittenAcceptsInheritedName | Payment.ValidatePaymentMethod |
