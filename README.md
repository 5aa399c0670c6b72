# Client onboarding wizard, modelled in Dafny

`client-onboarding.js` drives a multi-section intake form shown one section (fieldset)
at a time. This project models its four moving parts:

- **Step controller.** `showStep` activates one section and recomputes the progress
  percentage, the step label "Section n of m · title", the back button's visibility,
  the forward button's label and each step pill's active/completed flags. The back,
  forward and pill click handlers decide which step to show, or whether to submit.
- **Chip synchroniser.** `updateChipSelection` recomputes each chip's `selected` flag
  from the first input inside it.
- **Payload aggregation.** The form's `(name, value)` entries are folded into one
  object. A repeated name collects its values into a list, and a stored empty string
  counts as absent (JavaScript truthiness).
- **Submission lifecycle.** The forward button is locked while the request is in
  flight. The reply is classified as a success or a failure with a message. On success
  the inputs, the chips and the step are reset. Either way the button is then unlocked
  and relabelled "Submit".

Modules, leaves first:

| file | module | contents |
|---|---|---|
| wrappers.dfy | `Wrappers` | `Option` |
| decimal.dfy | `Decimal` | decimal text of numbers and its reader |
| navigation.dfy | `Navigation` | progress, labels, section and pill flags, the click-handler decision `Navigate` |
| form.dfy | `Form` | input elements and the entries `FormData` lists for them |
| chips.dfy | `Chips` | `querySelector(...:checked)`, per-chip synchronisation and its properties |
| payload.dfy | `Payload` | the aggregation loop, its specification function and an independent per-field description |
| submission.dfy | `Submission` | JSON replies, `Classify`, the operator's notices |
| wizard.dfy | `Wizard` | class `WizardSession`, with the DOM state it updates held in arrays and fields |
| scenarios.dfy | `Scenarios` | client runs: success, declared error, HTTP 500, unparsable ok body |

`WizardSession` keeps the page's mutable state:

- `sectionActive`, `pillActive` and `pillCompleted` are arrays of class flags.
- `inputs` and `chips` are arrays of records.
- `currentStep`, `progress`, `stepLabel`, `prevVisible`, `nextLabel` and `nextDisabled` are fields.
- `Valid()` says that everything displayed is what `showStep(currentStep)` derives, except the forward label. That label may also read "Submit" or "Submitting..." on any step, because the submission handlers set those texts.

Each handler is a method whose `ensures` states the new state. For the navigation
handlers, that state is given through the pure decision `Navigation.Navigate`.
The network reply is a parameter of `CompleteSubmit`. The alert text is its result.

Behaviour of the code worth knowing:

- **Progress range.** The progress is `Math.round(((stepIndex + 1) / totalSteps) * 100)`,
  modelled on the exact quotient. It is at least 1% only when `total <= 200 * (i + 1)`,
  so step 0 of a form with more than 200 sections shows 0%. It is 100% exactly when
  `200 * (i + 1) >= 199 * total`. So 100% appears only on the last step only for fewer
  than 200 sections: with 200 sections the last-but-one step already rounds to 100%
  (`ProgressFullBeforeLastStep`).
- **Nameless radios.** A radio button without a `name` never selects its chip: the
  lookup `input[name=""]:checked` does not match an input that lacks the attribute.
- **Radio chips.** A radio chip is selected when its input is the first checked input
  carrying its name in the document. That input may be a checkbox or a radio button.
- **Null body.** An ok reply whose body is JSON `null` fails: reading `status` of
  `null` throws a TypeError, and the catch handler reports it.
- **Forward label after success.** After a successful submission, `showStep(0)` sets
  the forward label to "Next →", but the `finally` handler then sets "Submit". So on
  section 1 the button reads "Submit" while it moves forward. `CompleteSubmit` states
  this as written (`nextLabel == SUBMIT_LABEL` together with `currentStep == 0`).

## Model

| member | source | states |
|---|---|---|
| `Navigation.Progress` | client-onboarding.js:53-55 | the percentage is 100·(i+1)/total rounded half up: `2·total·p <= 200·(i+1) + total < 2·total·(p+1)` |
| `Navigation.ProgressUnique` | client-onboarding.js:53 | that rounding interval holds exactly one integer |
| `Navigation.ProgressAtMost100` | client-onboarding.js:53 | the percentage never exceeds 100 |
| `Navigation.ProgressMonotone` | client-onboarding.js:53 | a later step never shows a smaller percentage |
| `Navigation.ProgressOfLastStep` | client-onboarding.js:53 | the last step shows 100% |
| `Navigation.ProgressFullIff` | client-onboarding.js:53 | 100% is shown exactly when `200·(i+1) >= 199·total` |
| `Navigation.ProgressFullOnlyOnLastStep` | client-onboarding.js:53 | with fewer than 200 sections, 100% is shown iff the step is the last |
| `Navigation.ProgressFullBeforeLastStep` | client-onboarding.js:53 | with 200 sections, step 199 of 200 already shows 100% |
| `Navigation.ProgressPositiveIff` | client-onboarding.js:53 | at least 1% is shown exactly when `total <= 200·(i+1)` |
| `Navigation.ProgressInRange` | client-onboarding.js:53 | with at most 200 sections every step shows 1..100% |
| `Navigation.StepLabelRoundTrip` | client-onboarding.js:50-51 | the label reads back as the 1-based step, the section count and the title, where the title is the section's `data-title` or "Section n" when that is absent or empty |
| `Navigation.ReadNumberThenOf` | client-onboarding.js:51 | a decimal followed by a separator text is read back exactly |
| `Navigation.NextLabel` | client-onboarding.js:58 | the forward label is "Submit" iff the step is the last, else "Next →" |
| `Navigation.ExactlyOneActive` | client-onboarding.js:46-48 | after showing step i exactly one section is active |
| `Navigation.ActiveCount` | client-onboarding.js:46-61 | the number of active flags is 1 if i is within range, else 0 |
| `Navigation.CompletedCount` | client-onboarding.js:62 | exactly the pills before step i are completed (i of them, or all if there are fewer) |
| `Navigation.PillNeverActiveAndCompleted` | client-onboarding.js:61-62 | no pill is both active and completed |
| `Navigation.Navigate` | client-onboarding.js:68-88 | a click handler only moves to a step in range, and submits exactly on Forward at the last step |
| `Navigation.ForwardMoves` | client-onboarding.js:72-78 | forward goes to i+1, or submits on the last step |
| `Navigation.BackMoves` | client-onboarding.js:68-70 | back goes to i-1, and does nothing on step 0 |
| `Navigation.JumpMoves` | client-onboarding.js:80-88 | a pill ahead of the current step is ignored; any other pill shows its step |
| `Navigation.BackUndoesForward` | client-onboarding.js:68-78 | back undoes a forward move and forward undoes a back move |
| `Decimal.NatToString` | client-onboarding.js:51 | a number renders as digits only, with a leading zero only for 0 |
| `Decimal.NatToStringRoundTrip` | client-onboarding.js:51 | reading the rendered digits gives the number back |
| `Decimal.LeadingDigits` | client-onboarding.js:51 | the result is the longest digit prefix |
| `Decimal.LeadingDigitsOfConcat` | client-onboarding.js:51 | digits followed by a non-digit are read back exactly |
| `Decimal.IntToString` | client-onboarding.js:127 | a negative number renders with a leading minus sign, and only a negative one does |
| `Form.FormEntries` | client-onboarding.js:93-96 | an entry exists for every named input that is not an unchecked box, and for nothing else |
| `Chips.FirstCheckedFrom` | client-onboarding.js:29 | the result is the first checked checkbox or radio with the name, or none when there is none |
| `Chips.SyncChip` | client-onboarding.js:22-35 | synchronising never changes which input a chip is bound to |
| `Chips.NamelessRadioNeverSelected` | client-onboarding.js:27-30 | a chip on a radio button without a name is never selected |
| `Chips.SyncChipAgrees` | client-onboarding.js:22-35 | after sync a checkbox chip is selected iff its input is checked, and a radio chip iff its input has a name and is checked with no earlier checked input of that name; a chip with no input, or with an input that is neither checkbox nor radio, is returned unchanged |
| `Chips.AgreeingChipUnchanged` | client-onboarding.js:22-35 | a chip that already agrees with its input is left as it is |
| `Chips.SyncAllAgrees` | client-onboarding.js:23-34 | after one run every chip agrees with its input |
| `Chips.SyncAllFixesAgreeing` | client-onboarding.js:23-34 | a run over chips that all agree changes nothing |
| `Chips.SyncIdempotent` | client-onboarding.js:22-35 | two runs with no input change in between equal one run |
| `Chips.RadioGroupSelectsAtMostOne` | client-onboarding.js:27-30 | two chips on different radios sharing a name are never both selected |
| `Payload.Push` | client-onboarding.js:97-105 | the three cases of one step: a list grows, a non-empty string becomes a pair, absent or "" is overwritten |
| `Payload.Add` | client-onboarding.js:96-106 | one step adds exactly the entry's name to the keys |
| `Payload.BuildPayload` | client-onboarding.js:94-106 | the loop builds exactly the fold of all entries |
| `Payload.DropLeadingEmpty` | client-onboarding.js:97 | the result is no longer than the input and does not start with "" |
| `Payload.DropLeadingEmptySnoc` | client-onboarding.js:97-105 | how one more value extends the values after their leading empties |
| `Payload.CollapseSnoc` | client-onboarding.js:97-105 | collapsing one more value is one more loop step |
| `Payload.AggregateIsCollapse` | client-onboarding.js:94-106 | a name is in the payload iff it occurs in the entries, and it holds its values (leading empties dropped) as a string when one remains and as the ordered list when more do |
| `Payload.ValuesOfNoEmpty` | client-onboarding.js:96 | without empty entry values, no value under any name is empty |
| `Payload.CollapseWithoutEmpty` | client-onboarding.js:97-105 | without empty values, one value gives that string and more give all of them in order |
| `Payload.AggregateWithoutEmpty` | client-onboarding.js:94-106 | without empty values, a name seen once maps to its string and a name seen again to all its values in entry order |
| `Payload.SingleFieldExample` | client-onboarding.js:104 | `color=red` gives `{color: "red"}` |
| `Payload.RepeatedFieldExample` | client-onboarding.js:101 | `topic=a, topic=b` gives `{topic: ["a", "b"]}` |
| `Payload.EmptyValueOverwrittenExample` | client-onboarding.js:97 | a stored "" is overwritten by the next value, while a later "" is appended |
| `Submission.HttpMessageRoundTrip` | client-onboarding.js:119 | the HTTP failure message reads back as the status code and reason phrase |
| `Submission.Classify` | client-onboarding.js:117-128 | success iff the reply is a response, its status is 200-299, and a parsed body is neither `null` nor declares an error |
| `Submission.NetworkErrorFails` | client-onboarding.js:113-137 | a rejected request fails with the rejection's own message |
| `Submission.NullBodyFails` | client-onboarding.js:122-126 | an ok response whose body is `null` fails with the TypeError of reading its `status` |
| `Submission.NotOkFails` | client-onboarding.js:118-120 | a status outside 200-299 fails with "HTTP status reason" |
| `Submission.UnparsableOkSucceeds` | client-onboarding.js:121-122 | an ok response with an unparsable body succeeds |
| `Submission.DeclaredErrorFails` | client-onboarding.js:126-127 | an ok object body with a truthy status other than "success" fails with the text of its truthy message, or with "Apps Script returned an error" when the message is missing or falsy |
| `Submission.NoDeclaredErrorSucceeds` | client-onboarding.js:126-130 | an ok object body without such a status succeeds |
| `Submission.NoticeDeterminesOutcome` | client-onboarding.js:130-137 | equal notices mean equal outcomes: success and failure notices differ, and a failure notice carries exactly its message |
| `Submission.SuccessNoticeIsNoFailureNotice` | client-onboarding.js:130-137 | the thank-you notice is never an error notice |
| `Submission.SheetLockedExample` | client-onboarding.js:126-127 | `{status: "error", message: "Sheet locked"}` fails with "Sheet locked" |
| `Submission.ServerErrorExample` | client-onboarding.js:118-119 | status 500 fails with "HTTP 500 Internal Server Error" |
| `Wizard.WizardSession.constructor` | client-onboarding.js:7-148 | initialisation shows step 0, synchronises the chips and leaves the forward button enabled |
| `Wizard.WizardSession.ShowStep` | client-onboarding.js:45-66 | section i is the only active one; progress, label, back visibility, forward label and pills are those of step i; `currentStep == i` |
| `Wizard.WizardSession.UpdateChipSelection` | client-onboarding.js:22-35 | every chip becomes its synchronised self, so all agree with their inputs |
| `Wizard.WizardSession.ChangeInput` | client-onboarding.js:37-41 | the edited input changes alone; the chips are resynchronised iff that input belongs to a chip |
| `Wizard.WizardSession.Prev` | client-onboarding.js:68-70 | state after `Navigate(.., Back)`: step 0 changes nothing, otherwise step i-1 is shown |
| `Wizard.WizardSession.ClickPill` | client-onboarding.js:80-88 | a pill ahead of the step changes nothing; otherwise it is `ShowStep(target)` |
| `Wizard.WizardSession.Next` | client-onboarding.js:72-78 | a disabled button does nothing; otherwise step i+1 is shown, or on the last step the submission starts with the aggregated payload, and the step and display are kept |
| `Wizard.WizardSession.BeginSubmit` | client-onboarding.js:93-110 | the payload is the aggregation of the form's entries; the button is disabled and reads "Submitting..." |
| `Wizard.WizardSession.ResetForm` | client-onboarding.js:131 | every input is back to its default |
| `Wizard.WizardSession.CompleteSubmit` | client-onboarding.js:117-142 | success resets inputs, chips and step (and any failure changes none of them); the notice follows the outcome; afterwards the button is always enabled and reads "Submit" |

## Left out

- The `fetch` call, the endpoint URL, `JSON.stringify` and the promise chain are left out. The reply is a parameter of `CompleteSubmit`. A rejected request is `NetworkError` carrying its message.
- `console.log` is left out. `alert` is modelled as the notice text that `CompleteSubmit` returns.
- DOM plumbing (`querySelectorAll`, `classList`, `style`, `addEventListener`) is left out. Sections, pills, inputs and chips are arrays fixed at construction. The progress bar width and the percentage readout are one `progress` field.
- Event dispatch is left out. Handlers are called one at a time. Back and the pills may still be used while a request is in flight, as in the page.
- `ChangeInput` takes an input to belong to a chip when it is the first input inside that chip. This stands in for `closest(".chip")`. The browser unchecking the other radios of a group is not modelled; the edited input changes alone.
- `Form.FormEntries`: its ensures states which inputs contribute an entry, not the order. Only the body gives document order.
- `FormEntries` also does not model disabled inputs, file inputs, multi-selects, inputs of type submit, reset, button or image (which `FormData` skips but the model lists as entries), or the default "on" value of a checkbox without a `value` attribute. The input's `value` is taken as given.
- Radio lookup assumes every input is in the form. The `:checked` lookup searches the whole document. The selector is modelled as plain name equality: a name that breaks the selector syntax (which would throw) or that the selector reads differently (a name holding a CSS backslash escape or a quote) is not modelled.
- A name of "" stands for a missing `name` attribute. An explicit `name=""` is not told apart from it: such a radio button's chip is never selected in the model, while the page's selector could match it.
- `form.reset()` is modelled as setting every input to a given default.
- `Math.round` is modelled on exact rationals, rounding half up. Floating-point error in `((stepIndex + 1) / totalSteps) * 100` is not modelled: for stepIndex 56 ("Section 57 of 200") the page computes 28.499999999999996 and shows 28%, where `Progress(56, 200)` is 29.
- A pill's `data-step` is a natural number. `parseInt` returning NaN or a negative number is not modelled: a negative index would throw in `showStep`. A form with no sections is excluded by `|titles| >= 1`, because `showStep(0)` would throw at start-up.
- The payload is a map, so the key order `JSON.stringify` would use is not represented. Names that clash with `Object.prototype` members (`constructor`, `toString`, ...) hit the truthiness check with an inherited value; this is not modelled.
- JSON numbers are integers. Fractions and the exponent form of very large numbers, as they would appear in a message, are not modelled. An array's text conversion is taken as given (`JArray(text)`).
- The TypeError raised for a `null` body carries V8's wording (`NULL_BODY_MESSAGE`). Other engines word it differently.
