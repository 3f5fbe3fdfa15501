# AI requirements assessment: a verified model

This project models the logic of the ai-requirements-form site. The site is a landing
page with a five-step assessment wizard and a mock "AI Implementation Specialist"
chatbot. The model covers:

- **the wizard** (`app/page.tsx`): the fixed step table, the step editor mounted for each
  index, the shallow merge of the reports the editors send up, the validator and its
  "X is required" messages, forward and backward navigation, the two-phase submission,
  and the CSV text of "Download Assessment Data";
- **the five step editors** (`app/components/*-step.tsx`): each keeps a record of its
  answers. Checkbox groups append or filter ids and text fields are set one at a time.
  Every change reports the whole record to the wizard under the step's section key;
- **the chatbot** (`app/components/ai-evaluation-chatbot.tsx`): the seeding of a new
  conversation, the templated evaluation with its cost-band lookup, the first-match
  keyword responder, the message list a question extends, the filter that hides the
  system prompt, and the Markdown report of the evaluation.

JavaScript objects are ordered association lists (`Assoc`), so that the order of
`Object.keys`/`Object.entries`, and with it the CSV row order and the `find` in the
validator, is part of the model. A record's values are `Forms.Value`: a string, a list of
checkbox ids, or a slider's number array. JavaScript truthiness is modelled: `""` is falsy
and every array is truthy. The components that change state are classes whose methods
change their fields (`Wizard.AssessmentWizard`, one `Editor` per step,
`Chatbot.ChatSession`). A callback such as `onUpdate` becomes the method's result. The
text-building code is written as functions. Each function has a partner: an
independent reading such as the RFC 4180 record parser that reads a CSV row back, or a
lemma stating what the source promises about it.

Modules: `Wrappers` (Option), `Text` (joining, splitting, searching, case, trimming,
quote doubling), `Assoc` (lookup, update, shallow merge), `Forms` (values, truthiness,
checkbox toggling), `OrganizationStep`, `ChallengesStep`, `RequirementsStep`,
`TechnicalStep`, `BudgetStep`, `Wizard`, `Csv`, `Chatbot`.

## Model

| member | source | states |
|---|---|---|
| Assoc.Get | app/page.tsx:108 | a key is found exactly when it is among the object's keys |
| Assoc.Keys | app/page.tsx:101 | `Object.keys` lists one key per entry, in entry order |
| Assoc.GetAt | app/page.tsx:108 | in an object without repeated keys, the i-th entry is what lookup of its key returns |
| Assoc.Set | app/components/organization-step.tsx:27 | `{ ...data, [field]: value }` holds `value` under `field` and leaves every other key's value alone |
| Assoc.SetKeys | app/components/organization-step.tsx:27 | the spread keeps key order; a new key goes last |
| Assoc.SetUnique | app/components/organization-step.tsx:27 | setting a field never duplicates a key |
| Assoc.Merge | app/page.tsx:83 | `{ ...prev, ...stepData }`: a key of the patch takes the patch's value and any other key keeps the old one |
| Assoc.MergeKeys | app/page.tsx:83 | the merged keys are the old keys in order, followed by the patch's new keys in patch order |
| Assoc.MergeUnique | app/page.tsx:83 | merging keeps keys unique |
| Forms.Update.AsPatch | app/components/technical-step.tsx:74 | a report `{technical: newData}` is an object with the one key `technical`, holding the new record |
| Forms.Truthy | app/page.tsx:102 | JavaScript truthiness of a form value: only the empty string is falsy, every array is truthy; its consequences for validation are stated by `Wizard.BlankIsMissing` and `Wizard.EmptyListShadows` |
| Forms.Without | app/components/technical-step.tsx:70 | `filter((id) => id !== x)` removes every occurrence of the id and leaves the multiset of the other ids unchanged |
| Forms.WithoutAppend | app/components/technical-step.tsx:70 | filtering distributes over concatenation, so the order of the remaining ids is kept |
| Forms.WithoutAbsent | app/components/technical-step.tsx:70 | filtering out an id that is not there changes nothing |
| Forms.Toggle | app/components/technical-step.tsx:68-70 | checking appends the id at the end without de-duplication; unchecking removes all its occurrences |
| Forms.ToggleOnOff | app/components/technical-step.tsx:68-70 | checking then unchecking an id removes it entirely, and restores the list when it was absent |
| OrganizationStep.InitialValid | app/components/organization-step.tsx:16-23 | the initial record of six fields has no key twice |
| OrganizationStep.Initial | app/components/organization-step.tsx:16-23 | the initial record; `OrganizationStep.InitialValid` and `Wizard.OrganizationRequiredStartEmpty` state its keys and empty values |
| OrganizationStep.Editor.constructor | app/components/organization-step.tsx:16-23 | a mounted editor holds the initial record |
| OrganizationStep.Editor.HandleChange | app/components/organization-step.tsx:25-31 | an empty field name or an undefined value changes nothing and reports nothing; otherwise the field (even set to "") alone changes and the new record is reported under `organization` |
| ChallengesStep.InitialValid | app/components/challenges-step.tsx:27-32 | the initial record has no key twice and a list under `selectedChallenges` |
| ChallengesStep.Initial | app/components/challenges-step.tsx:27-32 | the initial record; `ChallengesStep.InitialValid` and `Wizard.ChallengesRequiredStartEmpty` state its keys and empty values |
| ChallengesStep.Editor.constructor | app/components/challenges-step.tsx:27-32 | a mounted editor holds the initial record: empty challenge list, urgency [5], empty texts |
| ChallengesStep.Editor.HandleChallengeChange | app/components/challenges-step.tsx:34-44 | an empty id is a no-op; otherwise `selectedChallenges` is toggled, nothing else changes, and the new record is reported under `challenges` |
| ChallengesStep.Editor.HandleChange | app/components/challenges-step.tsx:46-52 | an empty field name is a no-op; otherwise only that field changes and the new record is reported |
| RequirementsStep.InitialValid | app/components/requirements-step.tsx:53-60 | the initial record has no key twice and lists under both checkbox groups |
| RequirementsStep.Initial | app/components/requirements-step.tsx:53-60 | the initial record; `RequirementsStep.InitialValid` and `Wizard.RequirementsRequiredStartEmpty` state its keys and empty lists |
| RequirementsStep.Editor.constructor | app/components/requirements-step.tsx:53-60 | a mounted editor holds two empty lists and four empty texts |
| RequirementsStep.Editor.ToggleIn | app/components/requirements-step.tsx:62-84 | the shared body of the two checkbox handlers: empty id is a no-op; otherwise the group is toggled, the other fields and the key order are kept, and the record is reported under `requirements` |
| RequirementsStep.Editor.HandleCapabilityChange | app/components/requirements-step.tsx:62-72 | toggles `capabilities` only and reports the new record |
| RequirementsStep.Editor.HandleIntegrationChange | app/components/requirements-step.tsx:74-84 | toggles `integrations` only and reports the new record |
| RequirementsStep.Editor.HandleChange | app/components/requirements-step.tsx:86-92 | an empty field name is a no-op; otherwise only that text field changes and the record is reported |
| TechnicalStep.InitialValid | app/components/technical-step.tsx:53-63 | the initial record has no key twice and lists under both checkbox groups |
| TechnicalStep.Initial | app/components/technical-step.tsx:53-63 | the initial record; `TechnicalStep.InitialValid` and `Wizard.TechnicalRequiredStartEmpty` state its keys and empty lists |
| TechnicalStep.Editor.constructor | app/components/technical-step.tsx:53-63 | a mounted editor holds two empty lists and seven empty texts |
| TechnicalStep.Editor.ToggleIn | app/components/technical-step.tsx:65-85 | the shared body of the two checkbox handlers: empty id is a no-op; otherwise the group is toggled, the other fields and the key order are kept, and the record is reported under `technical` |
| TechnicalStep.Editor.HandleCloudChange | app/components/technical-step.tsx:65-75 | toggles `cloudProviders` only and reports the new record |
| TechnicalStep.Editor.HandleDatabaseChange | app/components/technical-step.tsx:77-85 | toggles `databases` only and reports the new record |
| TechnicalStep.Editor.HandleChange | app/components/technical-step.tsx:87-93 | an empty field name is a no-op; otherwise only that text field changes and the record is reported |
| BudgetStep.InitialValid | app/components/budget-step.tsx:57-66 | the initial record has no key twice and a list under `investmentTypes` |
| BudgetStep.Initial | app/components/budget-step.tsx:57-66 | the initial record; `BudgetStep.InitialValid` and `Wizard.BudgetRequiredStartEmpty` state its keys and empty values |
| BudgetStep.Editor.constructor | app/components/budget-step.tsx:57-66 | a mounted editor holds priority [5], an empty investment list and empty texts |
| BudgetStep.Editor.HandleInvestmentChange | app/components/budget-step.tsx:68-78 | an empty id is a no-op; otherwise `investmentTypes` is toggled, nothing else changes, and the record is reported under `budget` |
| BudgetStep.Editor.HandleChange | app/components/budget-step.tsx:80-86 | an empty field name is a no-op; otherwise only that field changes and the record is reported |
| BudgetStep.Editor.HandleBudgetCardClick | app/components/budget-step.tsx:97-99 | clicking a card replaces any earlier choice: `budgetRange` becomes that card's id and nothing else changes |
| Wizard.EditorsReportUnderStepIds | app/page.tsx:34-65 | the editor `renderStep` mounts for step i reports under the step's `id`, which is what lets `updateFormData` clear that step's errors |
| Wizard.EditorFor | app/page.tsx:200-220 | the `switch` of `renderStep`; `Wizard.EditorsReportUnderStepIds` states that editor i reports under step i's id |
| Wizard.RemoveSpaceCapitals | app/page.tsx:106 | removing the spaces the label inserted gives back the camel-case name |
| Wizard.Label | app/page.tsx:106 | the two `replace` calls on a field name; `Wizard.LabelRoundTrip` states that the label gives the name back |
| Wizard.Message | app/page.tsx:106 | the label followed by " is required"; `Wizard.TwoWordMessage` states it for two-word names |
| Wizard.LabelRoundTrip | app/page.tsx:106 | the label of a lower-case-initial field name determines the name: lower-casing the first letter and dropping spaces gives it back |
| Wizard.SpaceCapitalsAppend | app/page.tsx:106 | `replace(/([A-Z])/g, " $1")` works letter by letter |
| Wizard.SpaceCapitalsNoUpper | app/page.tsx:106 | a word without capitals is left as it is |
| Wizard.SpaceCapitalsTwoWords | app/page.tsx:106 | a lower-case word followed by a capitalised word gets one space between them |
| Wizard.TwoWordMessage | app/page.tsx:106-110 | the message of a two-word name is the first word capitalised, a space, the second word and " is required"; "companyName" gives "Company Name is required" |
| Wizard.FindSectionFirst | app/page.tsx:101-103 | `find` returns the key of the first section, of any step, whose record holds the field truthily |
| Wizard.FindSectionNone | app/page.tsx:101-105 | `find` finds nothing only when no section holds the field truthily |
| Wizard.FindSection | app/page.tsx:101-103 | `Object.keys(formData).find(...)`; `Wizard.FindSectionFirst`, `Wizard.FindSectionNone` and `Wizard.FindSectionAt` state what it returns |
| Wizard.FindSectionAt | app/page.tsx:101-103 | when section i is the first to hold the field truthily, `find` returns its key and the lookup of that key gives section i's record |
| Wizard.Missing | app/page.tsx:101-111 | a required field is missing when no section holds it truthily or the first that does holds an empty list; `Wizard.BlankIsMissing`, `Wizard.FoundAnywhere` and `Wizard.EmptyListShadows` state both sides |
| Wizard.CollectErrors | app/page.tsx:98-113 | the `forEach` loop pushes exactly the messages the specification function lists |
| Wizard.ErrorsFor | app/page.tsx:98-113 | the messages `validateCurrentStep` collects; `Wizard.ErrorsExact` states that they are exactly the missing required fields |
| Wizard.Passes | app/page.tsx:115-120 | a step passes when it collects no message; `Wizard.ValidationPassesIff` states that this is exactly when no required field is missing |
| Wizard.ValidationPassesIff | app/page.tsx:96-121 | there are no messages if and only if no required field is missing |
| Wizard.ErrorsExact | app/page.tsx:96-113 | every message names a missing required field, every missing required field has its message, and there are never more messages than required fields |
| Wizard.BlankIsMissing | app/page.tsx:105-111 | a field that no section holds, or holds only as a falsy value or an empty list, is reported |
| Wizard.AllBlankAllMessages | app/page.tsx:98-113 | when every required field is blank, the messages are one per required field in `required` order |
| Wizard.FoundAnywhere | app/page.tsx:101-103 | the lookup is not limited to the current step's section: a non-empty value found first under any key satisfies the field |
| Wizard.EmptyListShadows | app/page.tsx:101-110 | an empty list in the first section, at any index, that holds the field at all shadows the field for every later section, since `[]` is truthy for `find` but then counts as missing |
| Wizard.RequiredFieldsStartEmpty | app/page.tsx:39-63 | every required field of a step is a field of that step's initial record and starts as "" or [] |
| Wizard.OrganizationRequiredStartEmpty | app/components/organization-step.tsx:16-23 | the four required organization fields start as "" |
| Wizard.ChallengesRequiredStartEmpty | app/components/challenges-step.tsx:27-32 | `selectedChallenges` starts as [] |
| Wizard.RequirementsRequiredStartEmpty | app/components/requirements-step.tsx:53-60 | `capabilities` and `integrations` start as [] |
| Wizard.TechnicalRequiredStartEmpty | app/components/technical-step.tsx:53-63 | `cloudProviders` and `databases` start as [] |
| Wizard.BudgetRequiredStartEmpty | app/components/budget-step.tsx:57-66 | `budgetRange` and `timeline` start as "" |
| Wizard.OneEmptySectionAllMessages | app/page.tsx:96-113 | a form holding one section whose required fields are all still empty fails once per required field |
| Wizard.FreshStepFailsPerField | app/page.tsx:96-113 | validating a freshly mounted step's own record reports every required field, in order |
| Wizard.RemountedEditReplacesSection | app/page.tsx:83 | after a re-mount the editor's first report replaces the whole section: the edited field has its new value and every other field is back to its initial value |
| Wizard.AssessmentWizard.constructor | app/page.tsx:68-72 | the wizard starts on step 0 with no form data, no errors, not submitting and not submitted |
| Wizard.AssessmentWizard.CurrentEditor | app/page.tsx:200-220 | the editor shown files its reports under the current step's id |
| Wizard.AssessmentWizard.UpdateFormData | app/page.tsx:81-94 | a falsy argument is a no-op; otherwise its sections replace whole sections, the other sections stay, and only the error entry of its first key is dropped |
| Wizard.AssessmentWizard.ValidateCurrentStep | app/page.tsx:96-121 | returns true exactly when the step passes; on failure the error map becomes exactly `{[stepId]: errors}`, dropping other steps' entries |
| Wizard.AssessmentWizard.NextStep | app/page.tsx:142-147 | advances by exactly one only when validation passes and the step is not the last; the index stays in range |
| Wizard.AssessmentWizard.PrevStep | app/page.tsx:149-154 | steps back by one unless on step 0, without validating or touching form data and errors |
| Wizard.AssessmentWizard.BeginSubmit | app/page.tsx:185-188 | failed validation changes nothing but the errors; otherwise the wizard enters the submitting state, recording the form data and step that passed |
| Wizard.AssessmentWizard.FinishSubmit | app/page.tsx:185-191 | callable only while submitting, which only a passing validation starts; submission ends with `isSubmitting` false and `isSubmitted` true, the submitted form having passed validation |
| Wizard.AssessmentWizard.Valid | app/page.tsx:185-191 | the step index is in range, the form data has unique keys, and being submitting or submitted implies a passing validation of the recorded form data; every method keeps it |
| Csv.BuildRows | app/page.tsx:157-171 | the nested loops build exactly the header followed by one row per field of every section, in entry order |
| Csv.Rows | app/page.tsx:158-171 | the file has the header and then exactly one row per field over all sections |
| Csv.Row | app/page.tsx:165-167 | one quoted row per field; `Csv.RowIsRecord` and `Csv.RowRoundTrip` state that it reads back as an RFC 4180 record |
| Csv.CellText | app/page.tsx:165-167 | a text value with its quotes doubled, a list or slider value joined with "; "; `Csv.ReadQuotedEscaped` states the read-back of text values and `Csv.ListQuoteBreaksRow` the failure for lists |
| Csv.PushSection | app/page.tsx:163-169 | the inner loop appends one row per field of a section, in entry order |
| Csv.DownloadCsv | app/page.tsx:156-173 | the file text is the rows joined by "\n", with no newline after the last |
| Csv.SectionRowsLength | app/page.tsx:161-171 | there is one row per field over all sections |
| Csv.RowAt | app/page.tsx:158-171 | the first row is `Section,Field,Value`; row 1 + (fields of earlier sections) + j is the row of the j-th field of section i |
| Csv.ReadQuotedEscaped | app/page.tsx:167 | a value with its quotes doubled reads back, as an RFC 4180 quoted field, as the original value |
| Csv.ParseQuotedRecord | app/page.tsx:165-167 | quoting each field with its quotes doubled and joining with commas gives a record that parses back to the fields |
| Csv.RowIsRecord | app/page.tsx:165-167 | a row is the three quoted cells joined by commas when the section and field names hold no quote |
| Csv.RowRoundTrip | app/page.tsx:165-167 | such a row parses back to its section, its field and its value (list items joined with "; ") |
| Csv.ListQuoteBreaksRow | app/page.tsx:165 | list items are not escaped: a list item with a quote inside gives a row that is not a valid RFC 4180 record |
| Csv.RowSingleLine | app/page.tsx:165-167 | a row of line-free names and values is one line |
| Csv.SectionRowsSingleLine | app/page.tsx:161-171 | line-free form data gives line-free rows |
| Csv.LinesAreRows | app/page.tsx:173 | for line-free form data, splitting the file at line breaks gives back exactly the rows |
| Chatbot.TextOr | app/components/ai-evaluation-chatbot.tsx:136 | `value \|\| "fallback"`: a missing or falsy value gives the fallback, a truthy one its text |
| Chatbot.FirstItemOr | app/components/ai-evaluation-chatbot.tsx:136 | `list?.[0] \|\| "fallback"`: the first id when there is a non-empty one, the fallback when the list is missing or empty or its first id is "" |
| Chatbot.CostTotal | app/components/ai-evaluation-chatbot.tsx:164 | the total is always one of the four bands |
| Chatbot.CardBand | app/components/ai-evaluation-chatbot.tsx:164 | the first-match substring lookup over the six budget card ids: the first four contain "50k" and get the lowest band, the last two get the top band, so the two middle bands are never produced |
| Chatbot.UnchosenBand | app/components/ai-evaluation-chatbot.tsx:164 | no budget range, or an empty one, gives the top band |
| Chatbot.LowCard | app/components/ai-evaluation-chatbot.tsx:164 | any range containing "50k" gets "$75,000 - $125,000", which is checked first |
| Chatbot.HighCard | app/components/ai-evaluation-chatbot.tsx:164 | "500k-1m" and "over-1m" fall through to "$500,000 - $750,000" |
| Chatbot.SummaryNamesCompany | app/components/ai-evaluation-chatbot.tsx:136 | the summary contains the company name entered |
| Chatbot.SummaryDefaultsToOrganization | app/components/ai-evaluation-chatbot.tsx:136 | without a company name the summary speaks of "your organization" |
| Chatbot.EvaluationFollowsSelections | app/components/ai-evaluation-chatbot.tsx:136-196 | the first selected challenge appears in the summary and in the pilot recommendation; the first cloud provider appears in the infrastructure recommendation |
| Chatbot.MockEvaluationShape | app/components/ai-evaluation-chatbot.tsx:165-202 | every evaluation has five cost items and seven recommendations |
| Chatbot.EmptyFormPlaceholders | app/components/ai-evaluation-chatbot.tsx:136-196 | an empty form gets the placeholders "organization", "technology", "operational efficiency", "your primary challenge" and "cloud" |
| Chatbot.Summary | app/components/ai-evaluation-chatbot.tsx:136 | the summary template filled in; `Chatbot.SummaryNamesCompany` and `Chatbot.SummaryDefaultsToOrganization` state what it names |
| Chatbot.Recommendations | app/components/ai-evaluation-chatbot.tsx:194-202 | two recommendations built from the answers, then the fixed advice unchanged and in order |
| Chatbot.GenerateEvaluation | app/components/ai-evaluation-chatbot.tsx:130-202 | the mock evaluation; `Chatbot.MockEvaluationShape`, `Chatbot.EvaluationFollowsSelections` and `Chatbot.CardBand` state its contents |
| Chatbot.TopicOf | app/components/ai-evaluation-chatbot.tsx:239-257 | the first keyword group the lower-cased question mentions decides; `Chatbot.CostKeywordWins` and `Chatbot.NoKeywordFallback` state the order |
| Chatbot.CostKeywordWins | app/components/ai-evaluation-chatbot.tsx:241-242 | a question naming "cost", "price" or "budget" gets the cost answer whatever else it mentions |
| Chatbot.NoKeywordFallback | app/components/ai-evaluation-chatbot.tsx:241-258 | a question naming none of the twelve keywords gets the fallback answer quoting it |
| Chatbot.Reply | app/components/ai-evaluation-chatbot.tsx:241-259 | the canned answer for the question; `Chatbot.CostReplyQuotesTotal`, `Chatbot.FallbackQuotesQuestion` and `Chatbot.ReplyIgnoresCase` state its content |
| Chatbot.TimelineImpliesTime | app/components/ai-evaluation-chatbot.tsx:243 | the keyword "timeline" never decides alone, since "time" is inside it |
| Chatbot.CostReplyQuotesTotal | app/components/ai-evaluation-chatbot.tsx:241-242 | a cost question is answered with the evaluation's total |
| Chatbot.CostReplyUndetermined | app/components/ai-evaluation-chatbot.tsx:242 | without an evaluation, or with an empty total, the cost answer says "to be determined" |
| Chatbot.FallbackQuotesQuestion | app/components/ai-evaluation-chatbot.tsx:257-258 | an unrecognised question is quoted back as typed, not lower-cased |
| Chatbot.ReplyIgnoresCase | app/components/ai-evaluation-chatbot.tsx:239-256 | matching is on the lower-cased question: asking in capitals gets the same canned answer |
| Chatbot.Visible | app/components/ai-evaluation-chatbot.tsx:395-396 | the chat never shows a system message |
| Chatbot.VisibleAppend | app/components/ai-evaluation-chatbot.tsx:395-396 | filtering distributes over concatenation |
| Chatbot.VisibleDropsOnlyPrompt | app/components/ai-evaluation-chatbot.tsx:395-396 | in a conversation whose only system message is the opening one, the filter hides exactly that message and shows the rest in order |
| Chatbot.ChatSession.Shown | app/components/ai-evaluation-chatbot.tsx:395-396 | the chat panel shows every message but the opening system prompt |
| Chatbot.SeedShowsGreeting | app/components/ai-evaluation-chatbot.tsx:105-118 | a fresh conversation is `[system, assistant]` and shows the greeting alone |
| Chatbot.TurnShows | app/components/ai-evaluation-chatbot.tsx:230-231 | a question and its answer both show, after what was shown before |
| Chatbot.ChatSession.constructor | app/components/ai-evaluation-chatbot.tsx:84-98 | a new chat has no messages, no input, no evaluation and is not loading |
| Chatbot.ChatSession.Open | app/components/ai-evaluation-chatbot.tsx:104-121 | opening with no messages seeds exactly `[system, assistant]` and generates the evaluation; a conversation under way is left alone |
| Chatbot.ChatSession.SetInput | app/components/ai-evaluation-chatbot.tsx:419 | typing replaces the input |
| Chatbot.ChatSession.SendMessage | app/components/ai-evaluation-chatbot.tsx:226-276 | input that trims to nothing changes nothing; otherwise exactly the user message with the raw input and one assistant reply are appended, the input is cleared and loading ends |
| Chatbot.DownloadEvaluation | app/components/ai-evaluation-chatbot.tsx:285-308 | nothing is downloaded before an evaluation exists; otherwise the report text of the evaluation |
| Chatbot.ReportText | app/components/ai-evaluation-chatbot.tsx:288-308 | the Markdown report; `Chatbot.ReportListsEverything` states what it contains |
| Chatbot.ReportListsEverything | app/components/ai-evaluation-chatbot.tsx:288-307 | the report contains the summary, methodology, timeline and `Total: <total>`, every cost item as `- category: amount\n  description`, and every recommendation as `- rec` |
| Text.SplitJoin | app/page.tsx:173 | splitting a join at its separator character gives back the parts when none of them contains it |
| Text.Join | app/page.tsx:173 | `join(sep)`; `Text.SplitJoin` states that splitting gives the parts back |
| Text.Contains | app/components/ai-evaluation-chatbot.tsx:241 | `includes`; `Text.ContainsIff` states it as an occurrence at some position |
| Text.ContainsIff | app/components/ai-evaluation-chatbot.tsx:241 | `includes` holds exactly when the pattern occurs at some position |
| Text.ToLowerIdempotent | app/components/ai-evaluation-chatbot.tsx:239 | `toLowerCase` leaves no capital letter and lower-casing twice changes nothing |
| Text.ToLower | app/components/ai-evaluation-chatbot.tsx:239 | `toLowerCase` keeps the length and lower-cases letter by letter |
| Text.Trim | app/components/ai-evaluation-chatbot.tsx:227 | `trim()`; `Text.TrimEmptyIffBlank` states when it is empty |
| Text.TrimEmptyIffBlank | app/components/ai-evaluation-chatbot.tsx:227 | `trim()` gives "" exactly when the input is all whitespace |
| Text.DoubleQuotesPlain | app/page.tsx:167 | doubling quotes changes nothing in a text without quotes |
| Text.DoubleQuotes | app/page.tsx:167 | `replace(/"/g, '""')`; `Csv.ReadQuotedEscaped` states that the result reads back as the original |

## Left out

- JSX rendering, framer-motion animation, Tailwind classes, the header, contact modal, contact button, footer and animated backgrounds: presentation and timers, with nothing to state.
- Blob, URL and `document` download mechanics and the date-stamped file names (app/page.tsx:174-182, app/components/ai-evaluation-chatbot.tsx:310-317): browser I/O and the clock. The model produces the text that would be downloaded.
- `setTimeout` delays, the `await` in `handleSubmit`, smooth scrolling and the timer that opens the chatbot after submission: submission is modelled as two discrete steps, `BeginSubmit` and `FinishSubmit`.
- The progress bar percentage: floating point and `Math.round`, presentation only.
- `console.log` and `console.error`: output only.
- The `catch` branches of the chatbot and their fallback evaluation and error reply: nothing in their `try` blocks can throw.
- Chatbot.ChatSession.SendMessage: the two `setMessages` updates and the `isLoading` flag run in one handler with no `await` between them, so the model applies them in order and ends with loading false.
- Text.ToLower and Text.Trim: ASCII only. `toLowerCase` and `trim` are Unicode-aware in JavaScript.
- Csv.BuildRows: the `typeof data === "object" && data !== null` filter is always true here. Every section reaches the form data as a record, because each editor reports `{section: record}`.
- The CSV cell of a slider value (`priority`, `urgency`) is its numbers in decimal joined with "; "; JavaScript's number formatting of non-integers is not modelled, since the sliders hold integers.
- OrganizationStep.Editor.HandleChange: `undefined` is modelled as `None`; other non-string values cannot reach it, as its callers pass input text or a select value.
- RequirementsStep.Editor.HandleChange, TechnicalStep.Editor.HandleChange: require a text field, not a checkbox group. Every caller in the components passes a fixed text field name, and a list field set to text would break the editor's invariant.
- ChallengesStep.Editor.HandleChange, BudgetStep.Editor.HandleChange: require that a checkbox group field receives a list, for the same reason.
- Chatbot.ChatSession.constructor: the fixed methodology, timeline, cost breakdown and last five recommendations are held in the session's `script`, which the constructor sets to the texts of the site's mock evaluation. `Open` generates the evaluation from it, so the methods do not depend on the long texts directly.
- Wizard.TwoWordMessage: the "companyName" example is stated as the instance w = "company", c = 'N', rest = "ame" of this lemma rather than as a separate lemma on the literal.
- The `isOpen` prop and `onClose` of the chatbot, its minimise state and tabs: `Open` is the effect run while the chat is open; the rest is presentation.
