# SAMU triage assistant: the sequential core in Dafny

This project models the parts of the emergency-triage web application that are plain sequential logic, and proves what they do:

- **Form store.** The form store (`FormContext.tsx`) is the `initialState` record. Its `formReducer` has six action kinds, including the `SET_STEP` action that no case handles.
- **Triage form.** The triage form (`TriageForm.tsx`) has:
  - the `SET_TRIAGE` payload of every input handler
  - the critical-sign checkbox toggle
  - the submit gate, together with the duration input's HTML constraints (`type="number" required min="1"`), which the browser checks before it lets the form submit
  - `handleSubmit` together with the form's `isModalOpen` flag, as a class
- **Console summary.** The console summary (`formLogger.ts`) is modelled as the ordered list of console events it emits, including the caught `TypeError` path.
- **Map screen.** The live map screen (`MapView.tsx`) is a class holding `selectedHospital`, `route` and the hospital list. Its two list updaters are pure functions.
- **Hospital list.** The hospital list (`HospitalList.tsx`) has the label chosen for a distance or an ETA, and one rendered entry per hospital.
- **Statistics generator.** The synthetic statistics generator (`dataGenerator.ts`) covers:
  - `randomBetween`, over a `Math.random()` value taken as a real number in [0, 1)
  - the integer and text fields of `generateYearlyData`
  - the three nested loops of `generateAppointmentStats`, as a method with loop invariants
- **Error classes.** The server's error classes (`errors.ts`) are a Dafny class with one constructor per source class, plus the `instanceof` chain.
- **Error middleware.** The error middleware (`errorHandler.ts`) is modelled as the status and JSON body it sends.

`Wrappers` holds `Option`, which stands for `undefined`/`null`. `Text` holds the JavaScript string operations the core uses: `join`, `filter(x => x !== v)`, decimal rendering of integers in template literals, and `toLowerCase` on ASCII.

Where the design description and the code disagree, the model follows the code:

- **Critical signs.** The description has a set of boolean critical-sign flags. The code keeps a list of sign names that a check appends to and an uncheck filters.
- **Pain.** The description has an integer 0–10 pain scale. The code keeps `painLevel` as text, `"0"` initially.
- **Duration.** The description has the duration as hours plus minutes. The form only edits `duration`/`durationUnit`, while the summary reads `durationHours`/`durationMinutes`. No form event writes those, so the summary always prints "0h 0m" (see `FormLogger.DurationLineStaysZero`).
- **Submission.** The description discards the triage record after a successful submission. In the code, `handleSubmit` only opens the suggestions modal and leaves the record as it is.
- **State shape.** The type declarations in `src/types/index.ts` conflict with the runtime record. The model uses the shape of `initialState`.

## Model

| member | source | states |
|---|---|---|
| FormContext.InitialState | src/context/FormContext.tsx:21-48 | empty patient info; region "Île-de-France" and specialty "Cardiologist"; empty urgency, incident type, consciousness and description; an empty sign list; pain "0"; duration hours and minutes "0", duration "" in "minutes"; an "in-person" appointment; map hidden |
| FormContext.Reduce | src/context/FormContext.tsx:55-70 | each setter replaces exactly its part and keeps the other three; RESET_FORM yields the initial record; SET_STEP falls to the default branch and leaves the state unchanged |
| FormContext.DropSetSteps | src/context/FormContext.tsx:67-68 | the history with every SET_STEP removed holds no SET_STEP, is a subsequence of the original, and keeps every other action as often as it was dispatched |
| FormContext.SetStepsAreIgnored | src/context/FormContext.tsx:67-68 | folding any action history through the reducer ends in the same state as folding it with all SET_STEP actions removed |
| FormContext.ResetForgetsHistory | src/context/FormContext.tsx:63-64 | after a RESET_FORM anywhere in a history, the final state depends only on the actions after it |
| FormContext.ResetIdempotent | src/context/FormContext.tsx:63-64 | two resets in a row end where one does, from any state |
| TriageForm.EditField | src/components/TriageForm.tsx:73-80 | the `{ ...triage, field: value }` payload: the edited field holds the value, every other field is unchanged |
| TriageForm.TriageExtensional | src/components/TriageForm.tsx:73-80 | two records equal on all edited and unedited fields are equal |
| TriageForm.EditChangesExactlyOneField | src/components/TriageForm.tsx:163-184 | a record is the result of an edit exactly when it differs from the old one only in the edited field; rewriting a field's own value is the identity |
| TriageForm.OnFieldChange | src/components/TriageForm.tsx:240-248 | an input's dispatch replaces the triage record with the edited copy and leaves patient info, appointment and map flag unchanged |
| TriageForm.ToggleSign | src/components/TriageForm.tsx:204-216 | check appends the sign after the existing list; uncheck removes every occurrence, keeps the rest in order with their multiplicities; a missing list counts as empty |
| TriageForm.CheckThenUncheck | src/components/TriageForm.tsx:205-208 | on a list without the sign, checking then unchecking restores the list |
| TriageForm.UncheckThenCheck | src/components/TriageForm.tsx:205-208 | unchecking then checking moves the sign to the end, once |
| TriageForm.OnSignChange | src/components/TriageForm.tsx:209-215 | a checkbox dispatch sets the sign list to the toggled list and changes no other field of the store: every other triage field, patient info, appointment and map flag are kept |
| TriageForm.ApplyFormEvents | src/components/TriageForm.tsx:163-216 | after any sequence of input, select, button and checkbox events, the region, specialty, duration hours and minutes, patient info, appointment and map flag are those of the starting store |
| TriageForm.Scaled | src/components/TriageForm.tsx:156-159 | a digit count scaled by a power of ten is never negative, and an exponent of zero leaves it as it is |
| TriageForm.PlainDigitsValue | src/components/TriageForm.tsx:156-159 | a plain run of digits is a valid number text, and its value is the number the digits spell |
| TriageForm.NegativeValue | src/components/TriageForm.tsx:156-159 | a number text with a minus sign denotes a value of at most zero |
| TriageForm.DurationGate | src/components/TriageForm.tsx:156-159 | the initial empty duration fails `required`; every negative number fails `min="1"`; a plain run of digits passes iff it denotes at least 1 |
| TriageForm.FractionRejected | src/components/TriageForm.tsx:156-159 | "1.5" fails the default step of 1 counted from `min` |
| TriageForm.ZeroFractionAccepted | src/components/TriageForm.tsx:156-159 | "1.0" passes, being a whole number of at least 1 |
| TriageForm.ExponentAccepted | src/components/TriageForm.tsx:156-159 | "2e1" passes, being a valid number text that denotes 20 |
| TriageForm.SubmitGate | src/components/TriageForm.tsx:282 | the button is enabled iff urgency and incident type are both non-empty: closed initially, unaffected by other edits and sign toggles, opened once both are set, closed by emptying either |
| TriageForm.TriageFormScreen.HandleSubmit | src/components/TriageForm.tsx:33-36 | submitting opens the modal and leaves the store untouched |
| TriageForm.TriageFormScreen.PressSubmit | src/components/TriageForm.tsx:279-285 | a press opens the modal exactly when the button is enabled and the duration input's constraints hold (so never with the initial empty duration), and never changes the store |
| TriageForm.TriageFormScreen.ChangeField | src/components/TriageForm.tsx:101-109 | an input event applies the field edit to the store and leaves the modal flag alone |
| TriageForm.TriageFormScreen.ChangeSign | src/components/TriageForm.tsx:204-216 | a checkbox event applies the toggle to the store and leaves the modal flag alone |
| TriageForm.TriageFormScreen.CloseModal | src/components/TriageForm.tsx:295 | the modal's `onClose` closes it and leaves the store untouched |
| FormLogger.PainText | src/utils/formLogger.ts:31 | the pain line is the level followed by "/10" |
| FormLogger.SignsText | src/utils/formLogger.ts:33 | an empty list reads "None reported"; otherwise the signs joined by ", " in list order |
| FormLogger.DescriptionText | src/utils/formLogger.ts:35 | an empty description reads "No description provided"; any other is shown verbatim |
| FormLogger.LogEmergencyData | src/utils/formLogger.ts:16-40 | group start, then urgency, incident, pain, duration lines with their labels and pass-through values; with a sign list, signs, consciousness, description and group end; with no sign list, the caught TypeError is logged and nothing is thrown |
| FormLogger.LabelsOfStep | src/utils/formLogger.ts:29-35 | the labels read from position k are the label at k followed by those after it |
| FormLogger.SevenLinesInOrder | src/utils/formLogger.ts:29-35 | with a sign list, exactly seven labelled lines are written, in the order urgency, incident, pain, duration, signs, consciousness, description |
| FormLogger.DurationLineStaysZero | src/utils/formLogger.ts:22 | after any sequence of form events from the initial store, the duration line reads "0h 0m", whatever duration was typed |
| FormLogger.SignsLineAfterCheck | src/utils/formLogger.ts:33 | checking a sign extends the signs line by ", " and the sign, or replaces "None reported" by it |
| FormLogger.ExampleRecord | src/utils/formLogger.ts:29-34 | the high-urgency neurological record logs "high", "Neurological", "8/10", "0h 5m", "Severe Headache", "Altered" |
| HospitalList.LabelFor | src/components/HospitalList.tsx:71-77 | "Error" gives "Service unavailable", "Unavailable" gives "No route found", a missing or empty value gives "Calculating...", and every other value is shown as it is, each as an if-and-only-if |
| HospitalList.Entries | src/components/HospitalList.tsx:47-89 | one entry per hospital in list order, keyed by and reporting that hospital's id, with labels chosen from its routeInfo |
| HospitalList.LabelsReadOnlyRouteInfo | src/components/HospitalList.tsx:71-89 | the entry ignores the top-level distance and eta, and the distance and ETA labels are chosen independently |
| MapView.MergeAllRoutes | src/components/MapView.tsx:121-129 | length, order, ids, names, addresses and routeInfo are kept; distance and eta each take the route's non-empty value for the id, else keep their own |
| MapView.MergeAllRoutesIdempotent | src/components/MapView.tsx:122-128 | merging the same routes map twice equals merging it once |
| MapView.MergeIsPerHospital | src/components/MapView.tsx:125-126 | a hospital's merged values depend only on the routes entry for its own id |
| MapView.MergeSelectedRoute | src/components/MapView.tsx:133-143 | only the hospital whose id is the selected one takes the route's distance and eta; with nothing selected the list is unchanged |
| MapView.SelectedRouteChangesAtMostOne | src/components/MapView.tsx:133-143 | with distinct ids, the single-route update changes at most one hospital |
| MapView.RouteUpdatesNeverReachTheList | src/components/MapView.tsx:121-144 | neither updater changes any rendered list entry, because they write distance/eta and the list reads routeInfo |
| MapView.MapViewState.HandleHospitalSelect | src/components/MapView.tsx:117-119 | selection records the id and changes nothing else |
| MapView.MapViewState.HandleAllRoutesCalculated | src/components/MapView.tsx:121-129 | the hospital list becomes the all-routes merge of the old one; selection and route are unchanged |
| MapView.MapViewState.HandleRouteCalculated | src/components/MapView.tsx:131-144 | the route is stored, and the list becomes the single-route merge for the selection held before the call |
| MapView.MapViewState.RoutePanel | src/components/MapView.tsx:174-181 | the panel exists iff a route is stored, and is open iff a hospital other than id 0 is selected |
| DataGenerator.RandomBetween | src/utils/dataGenerator.ts:24-26 | for min <= max the result lies in [min, max]; for reversed bounds it lies in (max, min] |
| DataGenerator.ScaledDrawBounds | src/utils/dataGenerator.ts:25 | a draw in [0,1) scaled by a positive width floors into [0, width) |
| DataGenerator.DrawShares | src/utils/dataGenerator.ts:46-49 | the three drawn shares lie in [5,10], [2,5] and [10,20], the remainder lies in [65,83], and the four sum to 100 |
| DataGenerator.PercentRoundTrip | src/utils/dataGenerator.ts:67-71 | a `${n}%` text is well formed and reads back as n |
| DataGenerator.RegionKeyLowersAndStrips | src/utils/dataGenerator.ts:59 | the one-pass region key equals the lower-cased region with every hyphen removed, and contains no hyphen |
| DataGenerator.Concat | src/utils/dataGenerator.ts:59 | the key starts with "44927" and ends with the year's decimal text |
| DataGenerator.ConcatKey | src/utils/dataGenerator.ts:59 | the key is "44927" + lower-cased hyphen-free region + specialty + year; regions differing only in case or hyphens share a key |
| DataGenerator.GenerateYearlyData | src/utils/dataGenerator.ts:28-79 | year text is the year followed by "-01-01"; region and specialty are passed through; compare_vs_previous_extract is null iff year <= 2021 and is otherwise a percentage in [-15, 5]; the TCS median lies in [2, 7] |
| DataGenerator.ShareTextsReadBack | src/utils/dataGenerator.ts:67-71 | each of the four share texts reads back as its drawn share |
| DataGenerator.UnderTwoDaysReadBack | src/utils/dataGenerator.ts:69 | share_under_48h reads back as share_24h plus share_between_24h_and_48h |
| DataGenerator.SharesAddUp | src/utils/dataGenerator.ts:46-49 | read back from the record, the four shares sum to 100, the under-48h share is the sum of its parts, and the remainder lies in [65, 83] |
| DataGenerator.WithoutFavoured | src/utils/dataGenerator.ts:102 | filtering Ile-De-France from the region list removes exactly its first entry |
| DataGenerator.WeightedRegions | src/utils/dataGenerator.ts:100-103 | the weighted list is eight Ile-De-France entries followed by the other four regions in order |
| DataGenerator.WeightedRegionsValue | src/utils/dataGenerator.ts:100-103 | the weighted list has twelve entries, entry i being Ile-De-France for i < 8 and region i - 7 otherwise |
| DataGenerator.SlotOrder | src/utils/dataGenerator.ts:97-108 | along the output years never decrease, specialties never decrease within a year, and a record is an Ile-De-France one iff its position mod 12 is below 8 |
| DataGenerator.SlotOfPush | src/utils/dataGenerator.ts:97-106 | the call for year offset y, specialty s and weighted region r is the one at position 120y + 12s + r |
| DataGenerator.Slots | src/utils/dataGenerator.ts:97-109 | the calls made before the loops reach (year, specialty, region) number 120 per year, 12 per specialty and one per region |
| DataGenerator.SlotsAt | src/utils/dataGenerator.ts:97-109 | the k-th call of the loops has the year, specialty and region that position k designates |
| DataGenerator.CollectStats | src/utils/dataGenerator.ts:97-109 | the loops make one call per year, specialty and weighted region in nesting order, and push each result in call order |
| DataGenerator.Repeat | src/utils/dataGenerator.ts:101 | `Array(n).fill(x)` has n entries, each of them x |
| DataGenerator.GenerateDefaultStats | src/utils/dataGenerator.ts:81 | a call without years covers 2021 through 2024: 480 records, record k being the one for position k from 2021 |
| DataGenerator.GenerateAppointmentStats | src/utils/dataGenerator.ts:81-112 | 120 records per year from startYear to endYear (none if startYear > endYear), record k being the one generated for position k's year, specialty and region |
| Errors.InstanceOfChain | server/utils/errors.ts:14-23 | exactly BaseError, ForecastError and TriageError are BaseErrors; only a ForecastError is a ForecastError, only a TriageError a TriageError; everything is an Error |
| Errors.ErrorObject.Base | server/utils/errors.ts:3-12 | status defaults to 500 and otherwise keeps the given code; the name is "BaseError"; the stack is the captured one |
| Errors.ErrorObject.Forecast | server/utils/errors.ts:14-21 | status is always 500, the name is "ForecastError", and the stack is the original error's when one is given, else the captured one |
| Errors.ErrorObject.Triage | server/utils/errors.ts:23-30 | status is always 500, the name is "TriageError", and the stack is the original error's when one is given, else the captured one |
| Errors.ErrorObject.Native | server/utils/errors.ts:3 | a plain or built-in Error is named after its class and has no status code |
| ErrorMiddleware.Classify | server/middleware/errorHandler.ts:13-39 | the ForecastError and TriageError branches are never taken; the BaseError branch answers exactly the three server classes, and the default branch answers everything else |
| ErrorMiddleware.Answer | server/middleware/errorHandler.ts:13-39 | a BaseError is answered with its own status, name and message; the stack is sent iff it is a BaseError, NODE_ENV is "development" and the stack is defined; any other error gets 500 and the fixed text; "Forecast Error"/"Triage Error" never appear unless they are the error's own name |
| ErrorMiddleware.AnswersToConstructedErrors | server/middleware/errorHandler.ts:13-39 | errors built by the server's constructors are answered under their class names, with 500 for the wrapping classes; plain and built-in errors get the default answer |
| ErrorMiddleware.StackOnlyInDevelopment | server/middleware/errorHandler.ts:17 | NODE_ENV changes only whether the stack is sent, and outside development it never is |
| ErrorMiddleware.AnswerBaseError | server/middleware/errorHandler.ts:13-18 | a thrown BaseError is answered with its status (500 by default), "BaseError" and its message, plus the captured stack in development |
| ErrorMiddleware.AnswerWrappedError | server/middleware/errorHandler.ts:13-33 | a thrown ForecastError or TriageError is answered 500 under "ForecastError"/"TriageError", with the wrapped error's stack in development when one was given |
| Text.Without | src/components/TriageForm.tsx:208 | `filter(s => s !== sign)` drops every occurrence, keeps every other element's multiplicity, and keeps the survivors' order |
| Text.Join | src/utils/formLogger.ts:33 | `join` of no element is the empty text and of one element that element alone, without separator |
| Text.IntTextRoundTrip | src/utils/dataGenerator.ts:56 | an integer rendered in a template literal reads back as itself |
| Text.LowerAscii | src/utils/dataGenerator.ts:59 | `toLowerCase` keeps the length and maps each character to its lower-case form |

## Left out

- JSX rendering, styling and animation. This covers the modal's hard-coded hospital suggestions, the option lists' rendering and `RoutePanel`/`HospitalMap`. They are presentation only.
- The React plumbing: the `FormProvider`/`useForm` context lookup and the `useState`/`useReducer` hooks. A dispatched action takes effect at once on the `form` field of `TriageFormScreen`, and a setter at once on the `MapViewState` fields. Re-render timing and stale closures are not modelled.
- The commented-out older MapView. It is dead code.
- The LLM calls, S3 signed URLs, the telephony webhook and the Express routes. They are network and SDK calls outside this model.
- The floating-point fields of `generateYearlyData`: `prats`, `total_CS`, the per-prat and per-month averages, `median_waiting_days_dep`, `total_tcs` and `total_appts_booked_48h`. The `baseStatsPerSpecialty` table feeds only these fields, so it is left out too.
- `Math.random()` is an oracle. Each `randomBetween` call site that feeds a modelled field gets its own draw in [0, 1), and `oracle(k)` gives the draws of the k-th record. The draws consumed by the left-out float fields and by the `total_tcs` factor are not modelled. The real arithmetic is exact, so the 53-bit rounding of JavaScript numbers is not modelled.
- `DataGenerator.CollectStats` receives the weighted region list as a parameter instead of rebuilding it for each specialty. The list is a constant, so the calls and their order are the same.
- `TriageForm.NumberValue` reads a number text exactly. The browser rounds the value to a double, so texts beyond double precision or range (such as "1.0000000000000001" or "1e400") are not judged as the browser would judge them. `Scaled` and the lemmas about number texts inherit this limit.
- `Text.LowerAscii` lowers ASCII letters only. The region names are ASCII, so the keys are exact.
- `Error.captureStackTrace` becomes the `captured` parameter of the constructors, because the trace depends on the call site. The `console.error`/`console.group` output of the middleware is not modelled; the summary's console output is the returned event list.
- The status code of an error object is `None` when the object has no such property. The handler's `requires err.Valid()` says that every BaseError carries one, which each constructor establishes.
- `ErrorMiddleware.ErrorHandler` carries no contract of its own. It passes the object's fields to `ErrorMiddleware.Answer`, which states the behaviour.
- The Express `req`, `res` and `next` objects. The response is returned as a status and a body, so "exactly one response per call" holds by construction.
