# Legal assistant: fee tariff, chat transition and view dispatch

This project models the logic of the legal-assistant front end (`App.tsx`, `types.ts`) in Dafny and proves properties of it:

- **Tariff** (`tariff.dfy`): the cost calculator's `calculateFees`. It has a two-bracket court fee and a four-bracket marginal-rate attorney fee, which is then raised to a minimum and lowered to a maximum. Amounts are exact `real` rials, and the input has an explicit NaN alternative. The formulas are modelled as the code writes them. Beside them is a general marginal-rate sum over a table of bands (`MarginalFee`). The contracts of `CourtFee` and `AttorneyTariff` state that the two agree. The slope bounds (so each fee is nondecreasing and continuous) are derived from the general sum. The edge values, the per-bracket forms and the clamp thresholds are computed from the formulas as written.
- **Chat** (`chat.dfy`, `text.dfy`, `arrays.dfy`): `ChatView` is a class with the component's state (`messages`, `userInput`, `isLoading`). `HandleSendMessage` is the send handler run as one transition. It has a guard, appends the user message, builds the history sent to the service (the filter, then dropping the last element), and appends exactly one model message. `ReceiveProps` is the re-render that happens when the user switches between chat views: it keeps the conversation and changes only the title and topic. `text.dfy` models JavaScript's `trim`, which the guard and the filter use. `arrays.dfy` models the array built-ins `filter` and `slice(0, -1)`.
- **Document form** (`document_form.dfy`): `DocumentGenerator.HandleSubmit` with its loading, error and result fields. The class also has the heading's title, and the form reset that runs when a re-render brings a different document type.
- **Types and dispatch** (`types.dfy`, `views.dfy`): the `AppView` enum and its string values, `LegalDocumentType`, the title table and the view-to-document-type record, and `renderContent`.

The two service calls are function-typed parameters: `getChatResponse` and `generateLegalDocument`. Each maps the request it is sent to either a result or a thrown error. Because of this, the contracts can state exactly which request is sent.

## Model

| member | source | states |
|---|---|---|
| `Types.ViewValueInjective` | types.ts:3-26 | no two `AppView` members have the same string value |
| `Types.ViewValue` | types.ts:3-26 | each view's string value is non-empty, and it is one of the `LegalDocumentType` literals exactly for the ten document-generator views |
| `Types.ViewToDocumentTypeKeys` | types.ts:53-64 | a view has an entry in `viewToDocumentTypeMap` exactly when it is not one of the six views Home, GeneralChat, CostCalculator, EjrayeAhkamHoghooghi, EjrayeAhkamKeyfari, LegalAnalysis |
| `Types.ViewToDocumentTypeIsViewValue` | types.ts:53-64 | the document type each view maps to equals that view's own enum string value |
| `Types.ViewToDocumentTypeInjective` | types.ts:53-64 | no two views map to the same document type |
| `Types.ViewToDocumentTypeOnto` | types.ts:28-38 | every `LegalDocumentType` is produced by some view |
| `Types.LegalDocumentTypeMapTotal` | types.ts:40-51 | `legalDocumentTypeMap` has a non-empty title for every document type |
| `Types.DocumentTypeOf` | App.tsx:368-369 | the record lookup gives a document type exactly for the ten generator views, and that type is the view's string value |
| `Types.DocumentTitle` | App.tsx:144 | the title of a document type always exists and is non-empty; distinct types have distinct titles |
| `Tariff.ClampAttorneyFee` | App.tsx:319-322 | the result lies in [5,000,000, 20,000,000,000]; a fee already inside is unchanged; one below becomes the minimum and one above becomes the maximum |
| `Tariff.CalculateFees` | App.tsx:296-326 | NaN or a value ≤ 0 gives two zero fees; a positive value gives a positive court fee and an attorney fee within the clamp bounds |
| `Tariff.MarginalFeeBelow` | App.tsx:314-317 | under a marginal-rate table, bands that start at or above the amount charge nothing on it |
| `Tariff.MarginalFeeSlope` | App.tsx:314-317 | for any gap-free band table whose rates lie in [lo, hi], the fee rises by between lo and hi times any increase in the amount |
| `Tariff.CourtFee` | App.tsx:303-309 | for every value ≥ 0 the court fee as written equals the marginal-rate fee over the bands (0, 200M] at 2.5% and above 200M at 3.5% |
| `Tariff.AttorneyTariff` | App.tsx:312-317 | for every value ≥ 0 the unclamped attorney fee as written equals the marginal-rate fee over the bands with edges 500M, 2B and 10B and rates 8%, 7%, 5% and 4% |
| `Tariff.CourtFeeLowerBracket` | App.tsx:305-306 | for 0 < v ≤ 200,000,000 (the edge included) the court fee is v × 0.025, at most 5,000,000 |
| `Tariff.CourtFeeUpperBracket` | App.tsx:307-309 | above the edge, the court fee is the 5,000,000 due at the edge plus 3.5% of the excess |
| `Tariff.CourtFeeSlope` | App.tsx:303-309 | the court fee rises by between 2.5% and 3.5% of any increase in value, so it is nondecreasing and continuous, including at 200,000,000 |
| `Tariff.AttorneyTariffAtEdges` | App.tsx:314-317 | the unclamped attorney fee is 40,000,000 at 500M, 145,000,000 at 2B and 545,000,000 at 10B |
| `Tariff.AttorneyTariffByBracket` | App.tsx:314-317 | inside each bracket (upper edges inclusive), the fee is the fee due at the bracket's lower edge plus the bracket's rate on the excess |
| `Tariff.AttorneyTariffSlope` | App.tsx:314-317 | the unclamped attorney fee rises by between 4% and 8% of any increase in value, so it is nondecreasing and continuous at every edge |
| `Tariff.AttorneyFloorBinds` | App.tsx:319-321 | for v > 0, the minimum raises the fee exactly when v < 62,500,000 |
| `Tariff.AttorneyCapBinds` | App.tsx:320-322 | for v > 0, the maximum lowers the fee exactly when v > 496,375,000,000 |
| `Tariff.AttorneyFeeClosedForm` | App.tsx:312-324 | the attorney fee shown is the minimum below 62.5M, the maximum above 496.375B, and the unclamped tariff in between |
| `Tariff.FeesMonotone` | App.tsx:296-322 | both figures shown are nondecreasing in the claim value over all values, including the step from the zeros shown for a value ≤ 0 |
| `Text.Trim` | App.tsx:235 | `trim()` yields the empty string exactly when every character is JavaScript white space or a line terminator; otherwise it neither starts nor ends with one |
| `Text.TrimIsSlice` | App.tsx:235 | what `trim()` returns is a slice `s[i..j]` of the input with a blank prefix `s[..i]` and a blank suffix `s[j..]` cut off |
| `Chat.ModelReply` | App.tsx:245-247 | the message appended when the call settles is a model message: the reply text, or the fixed error text when the call throws |
| `Chat.KeptForApi` | App.tsx:243 | the filter's test keeps every model message and exactly those user messages that are not made only of white space |
| `Chat.HistoryForApi` | App.tsx:243 | the history passed on is no longer than the list, and holds exactly the list's messages other than blank user messages |
| `Arrays.Filter` | App.tsx:243 | `Array.prototype.filter` returns no more elements than it is given |
| `Arrays.FilterMembers` | App.tsx:243 | an element is in the filtered array exactly when it is in the array and satisfies the predicate |
| `Arrays.FilterAppend` | App.tsx:243 | filtering a concatenation is the concatenation of the filtered parts, so the kept elements stay in order |
| `Arrays.FilterKeepsAll` | App.tsx:243 | an array whose every element satisfies the predicate is returned unchanged |
| `Arrays.DropLast` | App.tsx:244 | `slice(0, -1)` gives the empty array for an empty array, and otherwise the array without its last element |
| `Chat.HistoryBeforeSend` | App.tsx:237-244 | after a message that passes the filter is appended, dropping the last element of the filtered list gives the filtered earlier messages |
| `Chat.ConversationSentWhole` | App.tsx:237-247 | in a list built only by sends (user and model messages alternating, with no blank user text), the filter removes nothing |
| `Chat.ConversationExtend` | App.tsx:237-247 | appending a non-blank user message and then a model message keeps that alternating shape |
| `Chat.ChatView.constructor` | App.tsx:224-226 | a chat starts with no messages, empty input and not loading |
| `Chat.ChatView.SetUserInput` | App.tsx:277 | the input's change handler replaces the typed text |
| `Chat.ChatView.ReceiveProps` | App.tsx:379-388 | switching between the four chat views re-renders the same unkeyed chat with a new title and topic: these change, and the messages, typed text and loading flag carry over, so the alternating shape is kept |
| `Chat.ChatView.HandleSendMessage` | App.tsx:233-251 | a send with blank input, or while loading, changes nothing and sends nothing. Otherwise: the request carries the earlier messages without blank user messages, the typed text and the topic; `messages` becomes the old list plus the user message plus exactly one model message (the reply or the error text); the input is cleared; loading ends false; the alternating shape is kept; and from a state built by sends, the history sent is the whole earlier conversation |
| `DocumentForm.ErrorText` | App.tsx:169 | the error shown is never empty: it is the thrown message, or the default text when that message is empty |
| `DocumentForm.DocumentGenerator.constructor` | App.tsx:134-142 | a form starts with empty fields, no result, no error and not loading |
| `DocumentForm.DocumentGenerator.Title` | App.tsx:144 | the heading's title is the title table's entry for the form's document type, and it is never empty |
| `DocumentForm.DocumentGenerator.ReceiveDocumentType` | App.tsx:146-155 | a re-render with a different document type clears the five fields, the generated text and the error; one with the same type changes nothing; loading is not touched |
| `DocumentForm.DocumentGenerator.HandleSubmit` | App.tsx:158-173 | the request carries the document type and the five fields. On success the text is shown with no error; on failure no text is shown and a non-empty error is; loading ends false |
| `Views.RenderContent` | App.tsx:367-392 | a view gets a document generator exactly when the record has an entry for it, and that generator uses the record's document type; the four chat views get chats; CostCalculator gets the calculator; Home gets the home screen |
| `Views.ChatTopicsDistinct` | App.tsx:379-388 | each of the four chat views gets a topic of its own |

## Left out

- No scheduler, timer-driven job or notification code appears in `App.tsx` or `types.ts`: `App.tsx` imports only React, the type tables, the two service calls and icons (App.tsx:1-4). So none is modelled.
- `getChatResponse` and `generateLegalDocument` are network calls to a generative-AI service. Their source is not part of this model, so they appear only as parameters that map a request to a result or a thrown error.
- Amounts are exact `real`s. IEEE-754 rounding is not modelled. An infinite input is not covered either: the code tests only for NaN (App.tsx:297), so Infinity would pass that test. The model covers finite amounts.
- Display formatting (`toLocaleString`, the Persian-digit zero) is presentation only.
- `handleInputChange` (App.tsx:328-332) is input parsing. It turns the field into a number, and an empty field becomes 0. The model starts from the resulting value.
- Asynchronous interleaving and React's batched state updates are not modelled. Each handler is one sequential transition, so the intermediate `isLoading == true` state during the service call is not observable. The `prev => [...prev, …]` update is modelled as appending to the list as it stands after the user message.
- `HandleSubmit` has no guard in the code. A second submit while loading is prevented only by the disabled button (App.tsx:192), which is UI.
- Other UI details are left out:
  - the sidebar's width breakpoint;
  - `scrollIntoView`;
  - the clipboard copy and its timer;
  - the per-field change handlers of the document form;
  - the menu-item title lookup (App.tsx:373-374), whose result the switch does not use;
  - the JSX rendering itself.
- `Chat.ChatView` and `DocumentForm.DocumentGenerator`: the model does not link `Views.RenderContent` to component instances. Instance reuse on a view switch is stated by `ReceiveProps` and `ReceiveDocumentType`. A service call still pending when the view switches, whose reply then lands in the reused instance, is not modelled (see asynchronous interleaving above).
- `DocumentForm.ErrorText`: a thrown value whose `message` is missing or not a string is modelled as an empty message.
