# AdminDashboard payload pipeline, in Dafny

This project models the logic of the administrator dashboard view (`AdminDashboard.jsx`). The view fetches one aggregate payload from the backend. It turns the untrusted payload into display-safe chart labels and non-negative counts. It checks that labels and counts line up. It then writes two React state cells in sequence: first the chart configuration (`setContestSubmissions`), then the totals (`setTotalCounts`). Every exception in that pipeline goes to the `snackBar` callback with severity `"error"`. An `ErrorBoundary` around the chart shows nothing once the chart has failed to render. Before that it shows the chart, or a loading placeholder while the series is still empty.

Modules:

- `JsText` (`js_text.dfy`): `String.prototype.trim`, using the white-space and line-terminator characters of ECMA-262, and the decimal rendering of an index inside a template literal, with its inverse.
- `Sanitizer` (`sanitizer.dfy`): the label map, the count map, the `reduce` that gives the submissions total, and `Number(usersCount) || 0`. These are pure functions. The untyped JavaScript values are tagged variants: `RawContest = Falsy | Func | Obj(marked, name) | Prim(text)`, and the result of `Number()` is `Num = Finite(r) | NaN | PosInf | NegInf`, wrapped in `Coercion` because `Number()` can throw.
- `Dashboard` (`dashboard.dfy`): the chart and totals state, the payload shapes, the reference function `Fetch` for one run of `fetchAdminDashboard`, and the class `AdminDashboard`. Its two fields are the two state cells. Its method `FetchAdminDashboard` performs the steps and calls the two setters in source order, and its contract ties the result to `Fetch`.
- `RenderGuard` (`render_guard.dfy`): the `ErrorBoundary` class (fields `hasError`, `errorInfo`), the chart-or-placeholder choice, and one render of the chart section.
- `Scenarios` (`scenarios.dfy`): concrete payloads run through the model.

Points where the code does less than a reader of the view might expect:

- A truthy primitive label such as `"   "` trims to `""`. The code has no fallback on that branch, so labels are not always non-empty (`Sanitizer.PrimitiveLabelEmptyIff`).
- Labels are distinct only between fallbacks (`Sanitizer.SafeContestsFallbacksDistinct`). A primitive `"Contest 2"` at index 0 and a null entry at index 1 both get the label `"Contest 2"` (`Scenarios.FallbackCollidesWithPrimitive`).
- `totals.users` is `Number(usersCount) || 0`. Only NaN and 0 become 0. Negative numbers and infinities are kept (`Sanitizer.UsersOrZero`).
- A response whose status is not 200 is ignored silently: no state changes and no notice (`Dashboard.FetchNonOkIsSilent`).
- The mismatch error is one fixed message. It does not carry the two lengths (`Dashboard.FetchMismatchKeepsState`).
- The state update is two writes, not one. `Number(usersCount)` is evaluated after the chart setter has run. If it throws, the chart is updated but the totals are not (`Dashboard.FetchUsersThrowAfterChartWrite`, `Dashboard.PartialUpdateWitness`).

## Model

Source paths are relative to the repository root.

| member | source | states |
|---|---|---|
| `JsText.SkipForward` | client/src/components/Admin/Main/AdminDashboard/AdminDashboard.jsx:110 | the first index at or after `i` that is not white space; everything skipped is white space |
| `JsText.SkipBackward` | client/src/components/Admin/Main/AdminDashboard/AdminDashboard.jsx:110 | the end of the text before `j` once trailing white space is dropped; everything skipped is white space |
| `JsText.Trim` | client/src/components/Admin/Main/AdminDashboard/AdminDashboard.jsx:114 | `trim()` leaves no white space at either end and never lengthens the string |
| `JsText.TrimIsSlice` | client/src/components/Admin/Main/AdminDashboard/AdminDashboard.jsx:114 | `trim()` keeps one contiguous slice, and all it drops on both sides is white space |
| `JsText.TrimEmptyIff` | client/src/components/Admin/Main/AdminDashboard/AdminDashboard.jsx:110 | `trim()` gives `""` exactly when the string is all white space (the case in which `\|\|` falls back) |
| `JsText.TrimmedIsFixed` | client/src/components/Admin/Main/AdminDashboard/AdminDashboard.jsx:114 | a string with no white space at either end is unchanged by `trim()` |
| `JsText.TrimIdempotent` | client/src/components/Admin/Main/AdminDashboard/AdminDashboard.jsx:110 | trimming twice is the same as trimming once |
| `JsText.Decimal` | client/src/components/Admin/Main/AdminDashboard/AdminDashboard.jsx:100 | `${index + 1}` renders as a non-empty string of digits with no leading zero |
| `JsText.ParseDecimalOfDecimal` | client/src/components/Admin/Main/AdminDashboard/AdminDashboard.jsx:100 | parsing the rendered digits gives the number back |
| `JsText.DecimalInjective` | client/src/components/Admin/Main/AdminDashboard/AdminDashboard.jsx:100 | different numbers render as different strings |
| `Sanitizer.Fallback` | client/src/components/Admin/Main/AdminDashboard/AdminDashboard.jsx:100 | the fallback label is `"Contest "` followed by the decimal of index+1, and it is already trimmed |
| `Sanitizer.FallbackInjective` | client/src/components/Admin/Main/AdminDashboard/AdminDashboard.jsx:99-117 | two positions never share a fallback label |
| `Sanitizer.SanitizeLabel` | client/src/components/Admin/Main/AdminDashboard/AdminDashboard.jsx:97-119 | falsy values, functions and React elements or components get the fallback. An object gets its trimmed `name` when that is non-blank, else the fallback, including when formatting throws. Any other primitive gets `toString().trim()`. The label is non-empty on every branch but the primitive one, and never has white space at its ends |
| `Sanitizer.PrimitiveLabelEmptyIff` | client/src/components/Admin/Main/AdminDashboard/AdminDashboard.jsx:113-114 | a truthy primitive's label is `""` exactly when its string form is all white space |
| `Sanitizer.SafeContests` | client/src/components/Admin/Main/AdminDashboard/AdminDashboard.jsx:97-119 | the label map keeps length and order: label i is entry i sanitised with index i; every label has no white space at its ends, and every unusable entry shows its positional fallback |
| `Sanitizer.SafeContestsFallbacksDistinct` | client/src/components/Admin/Main/AdminDashboard/AdminDashboard.jsx:99-106 | two unusable entries at different positions get different labels |
| `Sanitizer.ValidateCount` | client/src/components/Admin/Main/AdminDashboard/AdminDashboard.jsx:123-128 | a count is the coerced number when that is finite and at least 0, and 0 otherwise (NaN, either infinity, negatives), so it is always at least 0 |
| `Sanitizer.ValidatedCounts` | client/src/components/Admin/Main/AdminDashboard/AdminDashboard.jsx:122-129 | the count map succeeds exactly when no coercion throws. It then has the raw length and validates element i in place. Otherwise it fails with the first thrown error |
| `Sanitizer.ValidatedCountsNonNegative` | client/src/components/Admin/Main/AdminDashboard/AdminDashboard.jsx:122-129 | every validated count is at least 0 |
| `Sanitizer.Sum` | client/src/components/Admin/Main/AdminDashboard/AdminDashboard.jsx:160 | the `reduce` from 0 gives 0 for no counts and is never negative when no count is |
| `Sanitizer.SumAppend` | client/src/components/Admin/Main/AdminDashboard/AdminDashboard.jsx:160 | the `reduce` sum of a concatenation is the sum of the sums |
| `Sanitizer.SumFront` | client/src/components/Admin/Main/AdminDashboard/AdminDashboard.jsx:160 | the left fold equals summing from the front |
| `Sanitizer.SumBounds` | client/src/components/Admin/Main/AdminDashboard/AdminDashboard.jsx:160 | the sum of non-negative counts is at least every count |
| `Sanitizer.SumNonNegative` | client/src/components/Admin/Main/AdminDashboard/AdminDashboard.jsx:160 | the sum of non-negative counts is 0 for none, at least 0 always, and 0 exactly when every count is 0 |
| `Sanitizer.UsersOrZero` | client/src/components/Admin/Main/AdminDashboard/AdminDashboard.jsx:159 | NaN and 0 become 0, every other number is kept as it is (negatives and infinities included), and the result is never NaN |
| `Dashboard.Publish` | client/src/components/Admin/Main/AdminDashboard/AdminDashboard.jsx:140-155 | the updater sets the categories to the labels and the one series "Submission Count" to the counts, keeps every other chart option, and gives a consistent chart exactly when labels and counts have the same length |
| `Dashboard.ErrorNotice` | client/src/components/Admin/Main/AdminDashboard/AdminDashboard.jsx:163-166 | the catch block reports the error's message, or `'Data processing failed'` when it is empty, always with `'error'` |
| `Dashboard.Fetch` | client/src/components/Admin/Main/AdminDashboard/AdminDashboard.jsx:84-167 | one run either keeps the chart or republishes it as one consistent series with the other options unchanged; the totals change only on a run with no notice, and then they describe the new chart; every notice is a non-empty message with `'error'` |
| `Dashboard.FetchNonOkIsSilent` | client/src/components/Admin/Main/AdminDashboard/AdminDashboard.jsx:91-162 | a response other than 200 that does not throw changes neither cell and notifies no one |
| `Dashboard.FetchRejectedNotifies` | client/src/components/Admin/Main/AdminDashboard/AdminDashboard.jsx:85-166 | a rejected request keeps both cells and reports its message or the default message |
| `Dashboard.FetchMalformedKeepsState` | client/src/components/Admin/Main/AdminDashboard/AdminDashboard.jsx:92-129 | a missing `dashboarDetails` or `contestSubmissions`, a non-array list, or a count whose coercion throws fails before either setter runs and reports that error |
| `Dashboard.FetchMismatchKeepsState` | client/src/components/Admin/Main/AdminDashboard/AdminDashboard.jsx:132-138 | labels and counts of different lengths keep both cells and report the length-mismatch message; nothing is truncated or padded |
| `Dashboard.FetchSuccess` | client/src/components/Admin/Main/AdminDashboard/AdminDashboard.jsx:140-161 | on success the categories are the sanitised labels and the one series holds the validated counts, both in backend order. Every other chart option is unchanged. `contests` is the number of labels (equal to the series length), `submissions` is the series sum (at least 0), `users` is `Number(usersCount) \|\| 0`, and nothing is reported |
| `Dashboard.FetchUsersThrowAfterChartWrite` | client/src/components/Admin/Main/AdminDashboard/AdminDashboard.jsx:140-161 | if `Number(usersCount)` throws, the chart has already been published, the totals keep their old value, and the error is reported |
| `Dashboard.PartialUpdateWitness` | client/src/components/Admin/Main/AdminDashboard/AdminDashboard.jsx:140-161 | so the totals can disagree with the chart: a one-category chart beside totals that count no contest |
| `Dashboard.FetchKeepsChartConsistent` | client/src/components/Admin/Main/AdminDashboard/AdminDashboard.jsx:132-155 | every run keeps exactly one series named "Submission Count", with one value per category |
| `Dashboard.FetchIdempotent` | client/src/components/Admin/Main/AdminDashboard/AdminDashboard.jsx:84-167 | running the fetch twice on the same response leaves the same state as running it once |
| `Dashboard.AdminDashboard.constructor` | client/src/components/Admin/Main/AdminDashboard/AdminDashboard.jsx:43-80 | the cells start at zero totals and an empty area chart with one empty series |
| `Dashboard.AdminDashboard.SetContestSubmissions` | client/src/components/Admin/Main/AdminDashboard/AdminDashboard.jsx:140-155 | the chart cell becomes the previous chart with new categories and a single new series; the totals cell is not touched |
| `Dashboard.AdminDashboard.SetTotalCounts` | client/src/components/Admin/Main/AdminDashboard/AdminDashboard.jsx:157-161 | the totals cell is replaced and the chart invariant is kept; the chart cell is not touched |
| `Dashboard.AdminDashboard.FetchAdminDashboard` | client/src/components/Admin/Main/AdminDashboard/AdminDashboard.jsx:84-167 | the two setter calls in source order leave exactly the state and notice that `Fetch` gives, and the chart stays consistent |
| `RenderGuard.ChartOrPlaceholder` | client/src/components/Admin/Main/AdminDashboard/AdminDashboard.jsx:209-219 | the chart, with the state's options and series, exactly when series[0] has data, and the loading placeholder otherwise |
| `RenderGuard.InitialShowsPlaceholder` | client/src/components/Admin/Main/AdminDashboard/AdminDashboard.jsx:74-79 | before any data arrives the placeholder is shown |
| `RenderGuard.ErrorBoundary.constructor` | client/src/components/Admin/Main/AdminDashboard/AdminDashboard.jsx:13 | the boundary starts with no error and no error info |
| `RenderGuard.ErrorBoundary.GetDerivedStateFromError` | client/src/components/Admin/Main/AdminDashboard/AdminDashboard.jsx:15-18 | a render error sets `hasError` |
| `RenderGuard.ErrorBoundary.ComponentDidCatch` | client/src/components/Admin/Main/AdminDashboard/AdminDashboard.jsx:21-25 | the component stack is recorded in `errorInfo` |
| `RenderGuard.ErrorBoundary.HandleRetry` | client/src/components/Admin/Main/AdminDashboard/AdminDashboard.jsx:28-30 | retry resets `hasError` to false and `errorInfo` to null |
| `RenderGuard.ErrorBoundary.Render` | client/src/components/Admin/Main/AdminDashboard/AdminDashboard.jsx:32-39 | nothing while in error, the children otherwise |
| `RenderGuard.RenderChartSection` | client/src/components/Admin/Main/AdminDashboard/AdminDashboard.jsx:208-220 | once in error the section stays empty. A chart that throws moves the boundary to error with its stack and shows nothing. Otherwise the chart or the placeholder is shown. The dashboard state is never touched |
| `Scenarios.WellFormedPayload` | client/src/components/Admin/Main/AdminDashboard/AdminDashboard.jsx:91-161 | users 10, two named contests and counts 5 and 7 give totals 10, 2, 12 and that chart |
| `Scenarios.NullEntryAtIndexTwo` | client/src/components/Admin/Main/AdminDashboard/AdminDashboard.jsx:99-100 | a null entry at index 2 is labelled `"Contest 3"` |
| `Scenarios.BlankNameFallsBack` | client/src/components/Admin/Main/AdminDashboard/AdminDashboard.jsx:110 | an object whose name is blank gets the fallback |
| `Scenarios.PaddedNameTrimmed` | client/src/components/Admin/Main/AdminDashboard/AdminDashboard.jsx:110 | an object's padded name is trimmed |
| `Scenarios.ThrowingNameFallsBack` | client/src/components/Admin/Main/AdminDashboard/AdminDashboard.jsx:115-117 | formatting that throws at index 9 gives `"Contest 10"` |
| `Scenarios.ElementFallsBack` | client/src/components/Admin/Main/AdminDashboard/AdminDashboard.jsx:104-105 | a React element gets the fallback even when it has a name |
| `Scenarios.FallbackCollidesWithPrimitive` | client/src/components/Admin/Main/AdminDashboard/AdminDashboard.jsx:97-119 | a primitive `"Contest 2"` at index 0 and a null entry at index 1 get the same label |
| `Scenarios.BadCountsBecomeZero` | client/src/components/Admin/Main/AdminDashboard/AdminDashboard.jsx:122-129 | -4, NaN and Infinity all validate to 0 |
| `Scenarios.MismatchFromInitialState` | client/src/components/Admin/Main/AdminDashboard/AdminDashboard.jsx:132-138 | three contests against two counts leave the initial state and report the mismatch |
| `Scenarios.UsersNotClamped` | client/src/components/Admin/Main/AdminDashboard/AdminDashboard.jsx:159 | -3 and Infinity are kept as the users total, and NaN becomes 0 |

## Left out

- The HTTP call `helperService.adminDashboard` and the `AuthContext` token lookup are external. The way the request settles is a parameter of `FetchAdminDashboard` (`Response`), and `helperService` is not part of this model.
- Async scheduling: `useEffect` firing once on mount, and a response that arrives after unmount. The model starts from a settled request. React's batching of state updates is not modelled either: the setters are immediate writes, in source order.
- The internals of `Number()` and `toString()`. Their results are inputs: `Num` or a thrown message for `Number()`, and the string for `toString()`. The TypeError messages the engine produces for a missing `dashboarDetails` or a non-array list are carried as data in the payload.
- IEEE floating point: counts and sums are exact reals, so the rounding of `reduce` and of large counts is not modelled.
- The axis label formatters (`value.toString()`, `val.toFixed(0)`) are charting configuration. `ChartOptions` does not hold them. The chart library's rendering, the JSX markup, images, CSS and the `console` logging are not modelled either.
- A request that rejects with `null` or `undefined`: reading `error.message` in the catch block would itself throw. `Response.Rejected` always carries a message ("" when the error has none).
- Sparse arrays, whose holes `map` skips: a JSON payload cannot contain them.
- A primitive whose `toString()` throws, or a primitive with a `$$typeof` marker, needs a patched built-in prototype. `Prim` covers neither, because both would end in the fallback, which `Obj` already models.
- The white-space set of `trim` (`JsText.IsWhiteSpace`) is written out as a fixed list of the ECMA-262 WhiteSpace and LineTerminator characters. It does not follow later Unicode changes to category Zs.
- `RenderGuard.ChartOrPlaceholder`: requires a non-empty series list. The source would throw on an empty one, and the `AdminDashboard` invariant `Valid()` rules that out.
