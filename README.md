# Tractor registration form and farm dashboard — a Dafny model

This project models two parts of a farm-equipment web front end and proves
properties of them.

- **The tractor registration form.** Its controller keeps three pieces of
  state: the draft (ten text entries and an availability flag), a map from
  field name to error message, and a "submitting" flag. It has three
  handlers:
  - validate: recomputes the error map from scratch;
  - edit a field: overwrites the value and blanks that field's error;
  - submit: validates, posts the draft with the three amounts converted to
    numbers, then shows a toast and navigates to `/tractors` on success.
  The model is the class `Registration.TractorRegistration`. The rules
  themselves are pure predicates over the draft.
- **The farm monitoring dashboard.** One refresh cycle, `fetchData`, polls
  two ThingSpeak channels in turn. A non-empty `feeds` list replaces a node's
  reading with its first entry. Node 2 also sets the "last updated" time. The
  `finally` block lowers the `loading` and `updating` flags. The model is the
  class `Dashboard.DashboardState`. Each stretch of code between two `await`s
  is one method, specified by a pure step function, and the render guards are
  pure functions.

The supporting modules are:
- `JsText`: JavaScript white space and `String.prototype.trim`.
- `EmailPattern`: the e-mail regular expression `^[^\s@]+@[^\s@]+\.[^\s@]+$`.
  It is defined twice, as an existential shape and as the executable
  first-`@` test, and the two definitions are proved equivalent.
- `JsNumbers`: JavaScript's `Number(s) <= 0`, including NaN, which compares
  false. `Number` is a parameter, pinned down only on digit strings of at
  most 15 digits, whose values a double holds exactly.

Three things outside the model enter it as parameters:
- the backend's reply to the registration POST (`Reply`);
- each ThingSpeak response (`Response`);
- the time formatter `toLocaleTimeString` (`formatTime`).

## Model

| member | source | states |
|---|---|---|
| Registration.Set | src/pages/TractorRegistration.tsx:143 | `{ ...prev, [field]: value }`; GetSet states its contract |
| Registration.GetSet | src/pages/TractorRegistration.tsx:143 | `{ ...prev, [field]: value }` changes the edited field to the new value and leaves every other field as it was |
| Registration.OnlyValidatedFieldsHaveRules | src/pages/TractorRegistration.tsx:58-85 | only the nine validated fields have a rule that can fail; the fuel type and the availability flag never get an error |
| Registration.FieldError | src/pages/TractorRegistration.tsx:61-81 | the outcome of one field's rule; its meaning is stated by RequiredFieldRule, EmailRule, AmountRule and OnlyValidatedFieldsHaveRules |
| Registration.IsBlank | src/pages/TractorRegistration.tsx:61 | `!s.trim()`; RequiredFieldRule and EmailRule (through JsText.TrimEmptyIffAllSpace) state that it holds iff the text is all white space |
| Registration.ErrorsOf | src/pages/TractorRegistration.tsx:58-85 | the error map of one validation pass has only validated fields as keys, and never the fuel type or the availability flag |
| Registration.CheckOwnerDetails | src/pages/TractorRegistration.tsx:61-69 | the owner-detail `if`s record exactly the rule outcome of name, e-mail, phone and location, and leave every other key as it was |
| Registration.CheckTractorDetails | src/pages/TractorRegistration.tsx:70-75 | the model, tractor-number and horsepower `if`s record exactly those fields' rule outcomes, and leave every other key as it was |
| Registration.CheckPricing | src/pages/TractorRegistration.tsx:77-81 | the two rate `if`s record exactly the hourly and daily rule outcomes, and leave every other key as it was |
| Registration.RecordsAllRulesIsErrorsOf | src/pages/TractorRegistration.tsx:58-85 | a map that records every section's rule outcome is the validation error map, with no extra key |
| Registration.ComputeErrors | src/pages/TractorRegistration.tsx:58-83 | the dictionary built by the sequence of `if`s, starting empty, equals the error map of the draft |
| Registration.RequiredFieldRule | src/pages/TractorRegistration.tsx:61-72 | each required text field has an error iff its text is all white space (empty included), with that field's "... is required" message |
| Registration.EmailRule | src/pages/TractorRegistration.tsx:63-66 | the e-mail has an error iff it is all white space or lacks the local@domain.tld shape; the message is "Email is required" in the first case, else "Invalid email address" |
| Registration.LeadingSpaceEmailIsInvalid | src/pages/TractorRegistration.tsx:63-66 | the shape test runs on the untrimmed text, so an e-mail starting with white space (and not blank) is "Invalid email address" |
| Registration.AmountRule | src/pages/TractorRegistration.tsx:74-81 | each amount field has an error iff its text is empty or its numeric value is at most zero; a text that converts to NaN gets no error |
| Registration.NoErrorsIffSubmittable | src/pages/TractorRegistration.tsx:83-84 | validation reports success (no keys) iff every rule holds, stated without trim or the executable e-mail test |
| Registration.SubmittableHasNoErrors | src/pages/TractorRegistration.tsx:58-84 | a draft that satisfies every rule gets an empty error map |
| Registration.UnsubmittableHasAnError | src/pages/TractorRegistration.tsx:58-84 | a draft that breaks some rule gets at least one error entry |
| Registration.UnvalidatedFieldsIrrelevant | src/pages/TractorRegistration.tsx:58-85 | changing the fuel type or the availability flag does not change the error map |
| Registration.EmptyOwnerAndZeroHorsepower | src/pages/TractorRegistration.tsx:61-75 | an empty owner name and horsepower "0" both fail, with "Owner name is required" and "Invalid horsepower" |
| Registration.ValidatedPayload | src/pages/TractorRegistration.tsx:106-118 | the body of a validated draft carries every text field untrimmed and amounts that are not at most zero; a horsepower of at most 15 decimal digits is a whole number of at least 1 |
| Registration.BuildPayload | src/pages/TractorRegistration.tsx:106-118 | the request body; ValidatedPayload states that it carries the texts untrimmed and the converted amounts |
| Registration.Thrown | src/pages/TractorRegistration.tsx:122-132 | the message the `try` block throws; Settle states what each reply leads to |
| Registration.Settle | src/pages/TractorRegistration.tsx:122-132 | navigation to `/tractors` with the success toast happens iff the reply is ok and parses; otherwise an error toast with a non-empty text, falling back to "Registration failed" for a rejected reply without a message and to "Backend not reachable" for an empty exception message |
| Registration.ShownError | src/pages/TractorRegistration.tsx:185-189 | the `errors.f && ...` guard that hides an absent or empty message; HandleInputChange states that the edited field shows none and the others are unchanged |
| Registration.TractorRegistration.constructor | src/pages/TractorRegistration.tsx:40-55 | the form starts with empty texts, fuel "Diesel", availability on, no errors and not submitting |
| Registration.TractorRegistration.ValidateForm | src/pages/TractorRegistration.tsx:58-85 | the stored errors are replaced wholesale by the fresh map, and the result is true iff every rule holds; the draft and the flag are untouched |
| Registration.TractorRegistration.HandleInputChange | src/pages/TractorRegistration.tsx:139-147 | the field is overwritten; its error entry is blanked if non-empty (the key stays); no other field's shown error changes; the flag is untouched |
| Registration.TractorRegistration.ToggleAvailability | src/pages/TractorRegistration.tsx:443 | the switch flips `isAvailable` and changes nothing else, since that field never has an error |
| Registration.TractorRegistration.BeginSubmit | src/pages/TractorRegistration.tsx:88-118 | a request is built iff validation passes, and then it is the draft with the amounts converted and the flag raised; otherwise the flag is untouched |
| Registration.TractorRegistration.FinishSubmit | src/pages/TractorRegistration.tsx:122-135 | the reply settles into toast and navigation, and `finally` lowers the flag |
| Registration.TractorRegistration.HandleSubmit | src/pages/TractorRegistration.tsx:88-136 | an invalid draft gives "Please fix the errors in the form", no request and no change to the flag; a valid one sends the converted draft, settles the reply and ends with the flag lowered |
| JsText.Trim | src/pages/TractorRegistration.tsx:61 | `s.trim()`; TrimIsSpaceFreeSlice and TrimEmptyIffAllSpace state its contract |
| JsText.TrimStartIsSuffix | src/pages/TractorRegistration.tsx:61 | removing leading white space keeps the suffix that starts at the first non-space character, and only white space is dropped |
| JsText.TrimEndIsPrefix | src/pages/TractorRegistration.tsx:61 | removing trailing white space keeps the prefix that ends at the last non-space character, and only white space is dropped |
| JsText.TrimIsSpaceFreeSlice | src/pages/TractorRegistration.tsx:61 | `trim()` returns a slice of the input with no white space at either end, and everything cut away is white space |
| JsText.TrimEmptyIffAllSpace | src/pages/TractorRegistration.tsx:61 | `!s.trim()` holds iff `s` consists of white space only |
| JsNumbers.AtMostZero | src/pages/TractorRegistration.tsx:74-81 | JavaScript's `n <= 0`, false for NaN; NaNPassesAmountRule and DigitsAmountRule state its consequences |
| JsNumbers.RejectsAmount | src/pages/TractorRegistration.tsx:74-81 | the rule `!s \|\| Number(s) <= 0`; AmountRule states it per amount field |
| JsNumbers.NaNPassesAmountRule | src/pages/TractorRegistration.tsx:74-75 | a non-empty text that `Number` turns into NaN passes the amount rule, because `NaN <= 0` is false |
| JsNumbers.DigitsValueZeroIff | src/pages/TractorRegistration.tsx:74-75 | a digit string has numeric value zero iff every digit is `0` |
| JsNumbers.DigitsAmountRule | src/pages/TractorRegistration.tsx:74-75 | on a digit string of at most 15 digits the amount rule rejects exactly the all-zero strings |
| JsNumbers.AcceptedDigitsAreWhole | src/pages/TractorRegistration.tsx:74-75 | a digit string of at most 15 digits that passes the amount rule converts to a whole number of at least 1 |
| EmailPattern.MatchesEmailPattern | src/pages/TractorRegistration.tsx:65 | the regular-expression test; MatchesIffShape states that it accepts exactly the regular expression's strings |
| EmailPattern.MatchesImpliesShape | src/pages/TractorRegistration.tsx:65 | every string the first-`@` test accepts matches `^[^\s@]+@[^\s@]+\.[^\s@]+$` |
| EmailPattern.ShapeImpliesMatches | src/pages/TractorRegistration.tsx:65 | every string the regular expression matches passes the first-`@` test |
| EmailPattern.MatchesIffShape | src/pages/TractorRegistration.tsx:65 | the executable test and the regular expression accept the same strings |
| EmailPattern.MatchedHasNoSpaceAndOneAt | src/pages/TractorRegistration.tsx:65 | an accepted e-mail has no white space anywhere and exactly one `@` |
| Dashboard.Delivered | src/pages/Dashboard.tsx:41-42 | a response delivers a feed iff it parsed with a non-empty `feeds` list, and the feed delivered is `feeds[0]` |
| Dashboard.Begin | src/pages/Dashboard.tsx:29-33 | at cycle start `loading` is raised when both seen nodes are null, otherwise `updating` is raised; readings and time are kept |
| Dashboard.ApplyNode1 | src/pages/Dashboard.tsx:41-43 | node 1 is replaced whole by a delivered feed and kept otherwise; node 2, the time and the flags are untouched |
| Dashboard.ApplyNode2 | src/pages/Dashboard.tsx:51-56 | node 2 is replaced whole by a delivered feed and the time is set from that feed's `created_at`; both are kept otherwise; node 1 is untouched |
| Dashboard.Finish | src/pages/Dashboard.tsx:60-63 | `finally` lowers both flags and keeps readings and time |
| Dashboard.Cycle | src/pages/Dashboard.tsx:27-64 | after a cycle both flags are false; node 1 follows its own response; node 2 and the time follow node 2's response only when node 1's fetch did not throw |
| Dashboard.Node1ThrowSkipsEverything | src/pages/Dashboard.tsx:28-59 | a throw while fetching or parsing node 1 leaves both readings and the time unchanged |
| Dashboard.Node2ThrowKeepsNode1 | src/pages/Dashboard.tsx:28-59 | a throw for node 2 keeps the node 1 update already made |
| Dashboard.Display | src/pages/Dashboard.tsx:147 | `value ?? "--"` shows "--" for a null or absent value and the value itself otherwise, the empty string included |
| Dashboard.NodeReadings | src/pages/Dashboard.tsx:92-95 | a node card shows its four fields with the "--" fallback, and "--" four times when the node has no reading |
| Dashboard.LastUpdatedText | src/pages/Dashboard.tsx:121 | an empty time shows "Waiting for data...", any other is shown as is |
| Dashboard.ShowLoadingScreen | src/pages/Dashboard.tsx:66 | the loading-screen guard; NoLoadingScreenAfterData and StaleClosureStart state when it holds during polling |
| Dashboard.Run | src/pages/Dashboard.tsx:21-25 | polling as written, with the mount-time closure; RunShowsLatestFeeds, RunKeepsTimeWithNode2 and StaleClosureStart state its contract |
| Dashboard.RunSnoc | src/pages/Dashboard.tsx:21-25 | polling one more round is one more cycle after the earlier ones |
| Dashboard.RunShowsLatestFeeds | src/pages/Dashboard.tsx:21-56 | after any number of cycles each node holds the latest feed its channel delivered (node 2 only in rounds where node 1 did not throw), or its earlier reading; readings are never cleared |
| Dashboard.RunKeepsTimeWithNode2 | src/pages/Dashboard.tsx:51-56 | the time is always the formatted `created_at` of the stored node-2 reading, and empty while there is none; node 1 never changes it |
| Dashboard.StaleClosureStart | src/pages/Dashboard.tsx:21-33 | with the mount-time closure every cycle takes the `loading` branch: `updating` is never raised, and the loading screen appears at a cycle start iff no node has a reading |
| Dashboard.NoLoadingScreenAfterData | src/pages/Dashboard.tsx:29-66 | once a node has a reading, the loading screen is never shown again, at a cycle's end or at the next cycle's start |
| Dashboard.DashboardState.constructor | src/pages/Dashboard.tsx:15-19 | the dashboard starts with no readings, an empty time, `loading` raised and `updating` lowered |
| Dashboard.DashboardState.StartCycle | src/pages/Dashboard.tsx:29-33 | the start-of-cycle branch as the step function `Begin` states it |
| Dashboard.DashboardState.ReceiveNode1 | src/pages/Dashboard.tsx:41-43 | the node 1 update as the step function `ApplyNode1` states it |
| Dashboard.DashboardState.ReceiveNode2 | src/pages/Dashboard.tsx:51-56 | the node 2 and time update as the step function `ApplyNode2` states it |
| Dashboard.DashboardState.EndCycle | src/pages/Dashboard.tsx:60-63 | the `finally` block as `Finish` states it |
| Dashboard.DashboardState.FetchData | src/pages/Dashboard.tsx:27-64 | the whole cycle's new state is `Cycle` of the old one, and both flags end false |

## Left out

- Network I/O (`fetch`, `response.json()`, the API URL and its environment variable, the ThingSpeak channel URLs and key) is not modelled. The outcome of each request is a parameter: `Reply` for the registration POST, `Response` for each channel.
- `Number(s)` string-to-double conversion is a parameter `num`. Only digit strings of at most 15 digits are pinned down (`AgreesOnDigits`), since their values are below 2^53 and exact as doubles. Longer digit strings are rounded to the nearest double, and become Infinity past about 309 digits; the model states nothing about them. White space, signs, exponents, hexadecimal and `Infinity` spellings are not modelled either.
- `JSON.stringify` is not modelled: the payload is a record of the converted values. The serialisation of NaN and Infinity as `null` is left out.
- `data.message || "Registration failed"`: a missing or falsy `message` is modelled as the empty string. A non-string truthy `message` is left out.
- `console.error` logging is left out. It changes no state.
- Registration.TractorRegistration.HandleInputChange requires the value's kind to fit the field (text for text fields, a flag for `isAvailable`), as the TypeScript types of the inputs guarantee. The handler accepts any value at run time.
- Registration.TractorRegistration.HandleSubmit does not check `isSubmitting`. Neither does the source: the only guard against a second submission is the disabled submit button (src/pages/TractorRegistration.tsx:458), which is view code.
- The three amount inputs are `type="number"`, so the browser limits what reaches `Number`. That browser behaviour is not modelled; any text is allowed.
- The page layout, icons, classes, units and the `Loading` and `Node3Control` components are not modelled. They compute nothing the state depends on.
- `new Date(created_at).toLocaleTimeString()` depends on the locale and time zone. It is a parameter `formatTime`.
- The 15-second interval, its cleanup on unmount, and cycles that overlap when a slow cycle outlives the next tick are not modelled. `Dashboard.Run` applies whole cycles one after another.
- A `feeds` property that is present but is not an array is not modelled. The same goes for a JSON body of `null`, which makes the property access throw; it is modelled as `Threw`.
- The `fetchData` registered at mount reads the mount-time `node1` and `node2`, both null. So in the source every later cycle also takes the `loading` branch, and the "Updating live data..." banner never appears. `Dashboard.Cycle` takes the nodes as the function sees them, as parameters. `Dashboard.Run` passes the mount-time nulls, as the code does, and `Dashboard.StaleClosureStart` proves the consequence. The model does not fix it.
- The two channel fetches are sequential inside one `try` in the code, so a failure on node 1 skips node 2. The model follows the code.
