# Coverie cover-page generator — verified model

Coverie is a small web app. A student fills in a form (department, session, course code, teacher, student, submission date, document type and topic), and a live preview renders a printable cover page from it. One button sends the form to a language-model flow that returns checked copies of the fields and a list of suggestions.

This project models and proves the app's deterministic logic:

- **Preview text** (`CoverPagePreview`). This is the title rule (`getTitle`) and the placeholder fallbacks on every line of the page.
- **Form schema and form state** (`CoverPageForm`):
  - the per-field zod rules;
  - the calendar's selectable range;
  - the saved-topics update done on blur;
  - the suggestion handling around a validation round trip. The component's two state lists live in the class `FormState`.
- **Server action** (`Actions`). The try/catch turns the flow call's outcome into a `{success, data, error}` record.

Supporting modules:

- `JsString` covers the JavaScript string behaviour the code relies on: `trim`, `length` measured in UTF-16 code units, and `toUpperCase` on one character.
- `Page` holds the form record and the default values.
- `ValidateInputs` holds the typed boundary of the flow.
- `CoverPage` ties the schema to the preview.

Dates are day numbers counted from 1970-01-01, so 1900-01-01 is day -25567. The current time is a parameter. Two date formatters stand in for date-fns and `toLocaleDateString`: `formatDate` for the preview and `toIsoDate` for the request. The flow call is an input value, `CallOutcome`: it returned a value, it threw an `Error`, or it threw something else.

Three facts about the code that the model keeps:

- The schema checks the department only by length (at least 2 code units). It does not check it against the three select choices.
- The topic is optional for every document type. No rule requires it.
- The schema does not check the date range. Only the calendar widget disables dates outside it.

## Model

| member | source | states |
|---|---|---|
| JsString.LeadingSpace | src/components/cover-page-form.tsx:112 | the count is at most the length, every character before it is white space, and the character at it (if any) is not |
| JsString.TrailingSpace | src/components/cover-page-form.tsx:112 | the count is at most the length, every character in the last `count` positions is white space, and the one just before them (if any) is not |
| JsString.Trim | src/components/cover-page-form.tsx:112 | the result is the slice of the input that starts after its leading white space and has only white space after it; a non-empty result neither starts nor ends with white space |
| JsString.TrimEmptyIff | src/components/cover-page-form.tsx:112-113 | trimming gives "" exactly when the input is all white space |
| JsString.TrimIdempotent | src/components/cover-page-form.tsx:112 | trimming twice equals trimming once |
| JsString.Utf16Length | src/components/cover-page-form.tsx:62-68 | a string's JavaScript length lies between its character count and twice that |
| JsString.Utf16LengthBmp | src/components/cover-page-form.tsx:62-68 | for text inside the Basic Multilingual Plane, the JavaScript length is the character count |
| Actions.ValidateInputsAction | src/lib/actions.ts:5-18 | the result always satisfies success ⇔ data present ⇔ no error; success happens exactly when the call returned, and then data is its output; a thrown Error gives its message; any other throw gives "An unknown error occurred." |
| Actions.ValidateInputsActionCollisions | src/lib/actions.ts:10-16 | two outcomes give the same record exactly when they are equal, or when one is a non-Error throw and the other an Error carrying the generic message |
| Actions.SuccessImpliesData | src/components/cover-page-form.tsx:130 | the client's `success && data` test is equivalent to `success` alone |
| JsString.ToUpperAscii | src/components/cover-page-preview.tsx:42 | a lower-case ASCII letter becomes its upper-case letter; any other character is unchanged; the result is never a lower-case ASCII letter |
| CoverPagePreview.OrElse | src/components/cover-page-preview.tsx:20-21 | a non-empty value is kept; an empty value gives the placeholder; the result is empty only when both are |
| CoverPagePreview.Capitalize | src/components/cover-page-preview.tsx:42 | same length; index 0 is upper-cased; every later character is unchanged |
| CoverPagePreview.CapitalizeIdempotent | src/components/cover-page-preview.tsx:42 | capitalizing twice equals capitalizing once |
| CoverPagePreview.Title | src/components/cover-page-preview.tsx:40-48 | the title starts with the capitalized type (or "Document") and is longer than it exactly when the topic is shown; it is never empty |
| CoverPagePreview.TitleWithTopic | src/components/cover-page-preview.tsx:44-45 | an assignment or lab report with a non-empty topic is titled Cap(type) + ` on "` + topic + `"` |
| CoverPagePreview.TitleWithoutTopic | src/components/cover-page-preview.tsx:41-47 | a general note, or a missing or empty topic, gives exactly Cap(type) |
| CoverPagePreview.TitleIsBareTypeIff | src/components/cover-page-preview.tsx:44-47 | the title is the bare capitalized type exactly when the topic is not shown |
| CoverPagePreview.TitleDeterminesTopic | src/components/cover-page-preview.tsx:44-45 | equal topic-bearing titles have the same document type and the same topic, so both can be read back from the title |
| CoverPagePreview.TitleMissingDocType | src/components/cover-page-preview.tsx:41-42 | an empty or missing document type gives "Document" |
| CoverPagePreview.TitleGeneralNoteExample | src/components/cover-page-preview.tsx:41-47 | a general note's title is "General note" whatever its topic |
| CoverPagePreview.Render | src/components/cover-page-preview.tsx:36-93 | the page carries the institution name and the title; the department, course code, session and ID lines start with their labels; the teacher, designation and student lines are never empty; an absent date shows "..." |
| CoverPagePreview.RenderFallbacks | src/components/cover-page-preview.tsx:16-93 | an empty teacher name, designation, student name or student ID shows "Teacher Name", "Designation", "Student Name" or "ID: Student ID"; an empty department, course code or session shows "..." after its label; an absent date shows "..."; non-empty values appear unchanged |
| CoverPagePreview.RenderNeverEmpty | src/components/cover-page-preview.tsx:36-93 | no line of the page is the empty string, for any form contents, when the date formatter gives non-empty text (a field of spaces passes the schema and still shows as spaces) |
| CoverPagePreview.RenderIgnoresGeneralNoteTopic | src/components/cover-page-preview.tsx:44-47 | a general note's page is the same for every topic |
| CoverPageForm.FieldOk | src/components/cover-page-form.tsx:61-74 | a text field passes exactly when its UTF-16 length reaches its minimum (2 for the department, 3 for the others); the date rule passes exactly when a date is present; the topic rule always passes |
| CoverPageForm.FieldErrors | src/components/cover-page-form.tsx:61-74 | a field is reported exactly when its own rule fails, and the reported fields appear in schema order, each once |
| CoverPageForm.IsValid | src/components/cover-page-form.tsx:61-74 | the schema accepts a record exactly when every field's rule holds |
| CoverPageForm.ValidIff | src/components/cover-page-form.tsx:61-74 | the schema accepts a record exactly when: the department has ≥ 2 UTF-16 units; the other six text fields have ≥ 3 each; a date is present; the type is one of the three enum values |
| CoverPageForm.ValidFromCharacterCounts | src/components/cover-page-form.tsx:62-73 | enough characters in each text field, a present date and an enum type make the record valid |
| CoverPageForm.TopicNeverMatters | src/components/cover-page-form.tsx:72 | replacing the topic with any value, or none, leaves the reported failures unchanged, for every document type |
| CoverPageForm.SchemaIgnoresDateValue | src/components/cover-page-form.tsx:69-71 | any present date passes, so the range is not enforced by the schema |
| CoverPageForm.ShortFieldInvalid | src/components/cover-page-form.tsx:62-68 | a text field below its minimum is reported and the record is invalid |
| Page.DefaultValues | src/app/page.tsx:16-27 | the default record has department "CSE", six empty text fields, today's date, an empty topic and the document type "assignment" |
| CoverPageForm.DefaultChecks | src/app/page.tsx:16-27 | on the default record the department, date, topic and document-type rules hold and the six other text rules fail |
| CoverPageForm.DefaultValuesFail | src/app/page.tsx:16-27 | the default record fails on exactly session, course code, teacher name, designation, student name and student ID, in that order |
| CoverPageForm.LengthCountsCodeUnits | src/components/cover-page-form.tsx:63-68 | "a" followed by an emoji has length 3 |
| CoverPageForm.SafeParse | src/components/cover-page-form.tsx:61-74 | parsing succeeds exactly for valid records and gives back the record; otherwise it gives one issue per failing field, in schema order, with that field's message |
| CoverPageForm.CalendarDisabledAsWritten | src/components/cover-page-form.tsx:296-298 | the predicate as written, on instants, disables a day exactly when it is after the local day of now or its local midnight is before UTC midnight of 1900-01-01 |
| CoverPageForm.FixedAgreesEverywhere | src/components/cover-page-form.tsx:296-298 | with the lower bound at local midnight of 1900-01-01, in every zone, a day is disabled exactly when it lies outside [1900-01-01, local today], and selectable exactly when inside |
| CoverPageForm.UpperBoundAgrees | src/components/cover-page-form.tsx:297 | in every zone, `date > new Date()` disables exactly the days after the local day of now |
| CoverPageForm.AsWrittenAgreesAtOrWestOfUtc | src/components/cover-page-form.tsx:296-298 | at UTC or west of it, the predicate as written disables exactly the days outside [1900-01-01, today] |
| CoverPageForm.FirstDayDisabledEastOfUtc | src/components/cover-page-form.tsx:297 | east of UTC, the predicate as written disables 1900-01-01 although it is in range |
| CoverPageForm.FirstDayDisabledInDhaka | src/components/cover-page-form.tsx:297 | in UTC+6 on 2024-03-15, 1900-01-01 is disabled as written and in range by day number |
| CoverPageForm.AddTopic | src/components/cover-page-form.tsx:112-114 | the old list is a prefix of the new one, which has at most one more element; when the list changes, the trimmed value is non-empty, was absent, and is appended at the end |
| CoverPageForm.AddTopicContents | src/components/cover-page-form.tsx:111-116 | the old list is a prefix of the new one; the new one has at most one more element; an element is in it exactly when it was before or is the non-empty trimmed value; blank input, or a trimmed value already in the list, leaves the list unchanged; otherwise the result is the list plus the trimmed value |
| CoverPageForm.AddTopicKeepsNoDuplicates | src/components/cover-page-form.tsx:113-114 | a duplicate-free list stays duplicate-free |
| CoverPageForm.AddTopicAddsTrimmed | src/components/cover-page-form.tsx:112-114 | no empty string is ever added, and anything added is already trimmed |
| CoverPageForm.AddTopicIdempotent | src/components/cover-page-form.tsx:113-114 | applying the update twice with the same input equals applying it once |
| CoverPageForm.ShownSuggestions | src/components/cover-page-form.tsx:135-139 | the shown list is never empty; it is the upstream list when that is non-empty, else exactly ["All inputs look good!"] |
| CoverPageForm.SuggestionsAfter | src/components/cover-page-form.tsx:130-145 | the suggestions are non-empty exactly when the result is a success carrying data, and are then the normalised upstream list |
| CoverPageForm.SuggestionsAfterCall | src/components/cover-page-form.tsx:121-146 | after a call, suggestions are non-empty exactly when the call returned, and then they are the normalised upstream list; a failed call leaves them empty |
| CoverPageForm.RequestFor | src/components/cover-page-form.tsx:123-127 | the request carries the institution name, the date serialised by `toIsoDate`, and the record's seven text fields, topic and type unchanged; it conforms to the flow's input schema exactly when the type is one of the enum |
| CoverPageForm.ValidRecordMakesConformingRequest | src/components/cover-page-form.tsx:123-127 | a record the form schema accepts has a date and yields a request the flow's input schema accepts |
| CoverPageForm.FormState.constructor | src/components/cover-page-form.tsx:95-96 | both saved topics and suggestions start empty |
| CoverPageForm.FormState.HandleTopicBlur | src/components/cover-page-form.tsx:111-118 | the saved topics become the topic update of the old list, keep duplicate-freeness, and suggestions are untouched |
| CoverPageForm.FormState.OnValidate | src/components/cover-page-form.tsx:120-148 | after clearing, the sent request is the record plus institution and serialised date; suggestions become what the result dictates (empty on failure); saved topics are untouched |
| CoverPageForm.FormState.Submit | src/components/cover-page-form.tsx:156 | the round trip runs exactly when the schema accepts the record, and then the sent request is the one built from this record and conforms; otherwise nothing changes |
| CoverPage.ValidRecordRendersOwnValues | src/components/cover-page-preview.tsx:20-90 | a record the schema accepts shows its own values on every line, with no placeholder, and its title is not "Document" |
| CoverPage.ScenarioValidWith | src/components/cover-page-form.tsx:61-74 | the example record is valid with any department of two or more characters |
| CoverPage.ScenarioIsValid | src/components/cover-page-form.tsx:61-74 | the CSE assignment on "Data Structures" passes the schema |
| CoverPage.ScenarioRendersTitle | src/components/cover-page-preview.tsx:40-47 | that record renders the title `Assignment on "Data Structures"` |
| CoverPage.ScenarioRendersDepartment | src/components/cover-page-preview.tsx:68 | that record renders the line "Department of CSE" |
| CoverPage.DepartmentNotEnumChecked | src/components/cover-page-form.tsx:62 | a department outside the select's choices ("EEE") still passes the schema |

## Findings

| source | as written | input that shows it | evidently intended | confidence | as-written member | corrected member |
|---|---|---|---|---|---|---|
| src/components/cover-page-form.tsx:297 | `date < new Date("1900-01-01")` compares the calendar's local-midnight Date with UTC midnight, because a date-only ISO string is parsed as UTC | day 1900-01-01 in a zone east of UTC, such as UTC+6 (Bangladesh) | every day from 1900-01-01 to today is selectable | medium, not executed | CoverPageForm.FirstDayDisabledEastOfUtc | CoverPageForm.FixedAgreesEverywhere |

The as-written predicate is `CoverPageForm.CalendarDisabledAsWritten`, over millisecond instants and a UTC offset. The corrected predicate is `CoverPageForm.CalendarDisabledFixed`: the same code with the lower bound at local midnight, as `new Date(1900, 0, 1)` gives. `FixedAgreesEverywhere` proves that it matches the intended range `DateDisabled`, over day numbers, in every zone. `AsWrittenAgreesAtOrWestOfUtc` shows that the predicate as written matches it at UTC and west of it, and `FirstDayDisabledEastOfUtc` that it does not east of UTC.

## Left out

- JsString.ToUpperAscii: upper-cases only the ASCII letters, for the reason given on the next line.
- Capitalize: only ASCII letters are upper-cased. JavaScript's full Unicode case mapping is not modelled; it can change characters outside ASCII and can even lengthen a string ("ß" becomes "SS"). All three document types are ASCII.
- Date formatting is left out: date-fns `format(d, "do MMMM, yyyy")` and `format(d, "PPP")`, and `toLocaleDateString('en-CA')`. These are foreign-library and locale behaviour, so they are the parameters `formatDate` and `toIsoDate`. For the same reason, the model does not claim that the shown date and the sent date name the same day.
- CalendarDisabledAsWritten: uses one UTC offset for every date. Daylight-saving changes and historical offsets are not modelled.
- Reading `savedTopics` from localStorage and the `JSON.parse` error path are left out as browser I/O, and so is writing the list back. The lemmas therefore state duplicate-freeness as preserved, not as always true.
- `window.print()`, `console.error` and the toasts are output only.
- The JSX, the select and radio widgets, the logo image and the conditional showing of the topic field are presentation.
- `useTransition` and `isPending` are concurrency, so `OnValidate` runs as one step. The cleared suggestions between the start of the call and its result are not observable in the model, nor is the disabled submit button.
- The validation flow itself is a prompt to an external language model. Its output is an input here (`CallOutcome.Returned`). A flow that resolves to `null` through `output!` is not modelled.
- SafeParse: zod's built-in messages for the document-type rule are not reproduced; the issue carries `None` there. zod's rejection of an invalid `Date` has no counterpart, because a day number is always a valid date.
- react-hook-form's `watch` subscription and its `mode: "onBlur"` re-validation schedule are framework plumbing. The model evaluates the schema and the preview on whatever record it is given.
