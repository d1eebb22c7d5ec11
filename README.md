# Trainer assessment form creator — Dafny model

The form creator is a Streamlit page on which a trainer enters their name, the
college, a test title and between 1 and 50 multiple-choice questions (a prompt,
four options and the correct answer each). Pressing "Generate Google Form"
creates a Google Form titled `<test title> - <college>`, adds two required
free-text items (student name, batch and specialization) followed by one
required radio item per question, files the form into a shared Drive folder,
appends an audit row to the "Pre-Post Test" sheet and shows the form's view
link.

This project models that logic in four modules:

- `Wrappers` — option and result values for call outcomes and parsing.
- `FormsApi` — the Forms API v1 payload the page sends: form info, items,
  choice options and `createItem` requests.
- `FormBuilder` — the questionnaire loop (`CollectQuestions`), the form title
  and create body, and the request list: a specification `RequestsFor` with
  lemmas about it, and the imperative builder `BuildRequests` proved equal to
  it.
- `Orchestrator` — the view link, the audit row and the submission sequence
  `Submit`. The outcome of each remote call is an input (`Services`), and
  `Submit` returns the calls made and messages shown as a trace of effects.

The question count is the subset type `QuestionCount` (1..50), which matches
the bounds of the number input. The widgets are a function from the question
index to the values of that index's six widgets. The "Correct Answer"
selector is a slot 0..3 into the four option fields, and its value is the
option text in that slot.

The composed title does not determine its parts in general: "a - b" with
"c" and "a" with "b - c" both give "a - b - c". That is why
`FormTitleInjective` assumes test titles of equal length. The audit row
(app.py:212) keeps the test title and the college name as separate cells, so
both can be read back from it.

## Model

| member | source | states |
|---|---|---|
| `FormBuilder.CollectQuestions` | app.py:116-133 | exactly `count` questions (1..50), question k read from widget k: its prompt, its four options in order, and as its answer the selected option's value, so the answer is one of its own four options |
| `FormBuilder.FormTitle` | app.py:138 | the title is the test title, then " - ", then the college name, each part at its position |
| `FormBuilder.FormTitleInjective` | app.py:138 | two titles whose test titles have the same length are equal only if both the test titles and the college names are equal |
| `FormBuilder.NewForm` | app.py:139-144 | both `info.title` and `info.documentTitle` are exactly the composed form title |
| `FormsApi.ChoiceOptionsAt` | app.py:189 | option k of a choice item has the k-th option text as its value |
| `FormsApi.ValuesOfChoiceOptions` | app.py:189 | reading back the values of the choice options gives the original option list, in order and complete |
| `FormsApi.ChoiceOptions` | app.py:189 | one choice option for each option text |
| `FormsApi.Values` | app.py:189 | read-back inverse of app.py:189 (the source has no such reader): one text for each choice option |
| `FormBuilder.QuestionItem` | app.py:182-194 | the question item has the prompt as its title and no description. It is required, of type RADIO with shuffle off, and its option values are the question's options in order |
| `FormBuilder.QuestionItems` | app.py:179-194 | one item per question |
| `FormBuilder.Placed` | app.py:171-197 | one `createItem` request per item |
| `FormBuilder.RequestsFor` | app.py:170-197 | the request list has exactly two more entries than there are questions |
| `FormBuilder.QuestionItemsAt` | app.py:179-194 | item k is the item of question k, so entry order is kept |
| `FormBuilder.PlacedAt` | app.py:171-177 | request k carries item k at location index `from + k` |
| `FormBuilder.RequestAt` | app.py:170-197 | request k is lead-in k for k < 2 and otherwise the item of question k-2, and its location index is k |
| `FormBuilder.IndexIsPosition` | app.py:171-197 | every request's `location.index` equals its position in the list |
| `FormBuilder.LeadInsFirst` | app.py:148-177 | requests 0 and 1 are "Student Full Name" and "Batch & Specialization". Both are required text questions, at indices 0 and 1, for any question list |
| `FormBuilder.QuestionRequest` | app.py:179-197 | request k+2 has question k's prompt as its title. It is a required RADIO choice with shuffle off, its location index is k+2, and its option values are the question's options in order, four of them when the question has four |
| `FormBuilder.QuestionItemsIgnoreAnswers` | app.py:179-194 | the question items do not depend on the correct answers |
| `FormBuilder.AnswersNotTransmitted` | app.py:179-199 | two question lists that differ only in their answers give the same request list, so no answer reaches the form |
| `FormBuilder.BuildRequests` | app.py:170-197 | the two loops (lead-ins placed at their enumeration index, then questions placed at the current length) produce exactly `RequestsFor` of the questions |
| `Orchestrator.FormLink` | app.py:200 | the link is the forms prefix, the form id and "/viewform", each at its position |
| `Orchestrator.ParseFormLink` | app.py:200 | read-back inverse of app.py:200 (the source has no such parser): a parsed form id is the link minus the prefix and suffix lengths |
| `Orchestrator.ParseFormLinkOfFormLink` | app.py:200 | the form id can be read back from its link |
| `Orchestrator.FormLinkOfParseFormLink` | app.py:200 | any link from which an id parses is the link of that id |
| `Orchestrator.FormLinkInjective` | app.py:200 | different form ids give different links |
| `Orchestrator.RowCells` | app.py:212 | the appended row has exactly five cells |
| `Orchestrator.RowOf` | app.py:212 | read-back inverse of app.py:212 (the source has no such reader): a row can be read back exactly from five cells |
| `Orchestrator.RowOfRowCells` | app.py:212 | the cells read back as the same audit row (timestamp, trainer, college, title, link, in that order) |
| `Orchestrator.RowCellsOfRowOf` | app.py:212 | five cells read as a row give the same cells back |
| `Orchestrator.LinkMarkdown` | app.py:215 | the success markdown is the link label, then the form link, then ")", each at its position |
| `Orchestrator.LinkInMarkdown` | app.py:215 | read-back inverse of app.py:215 (the source has no such parser): a link read from the markdown is the text minus the label and the closing parenthesis |
| `Orchestrator.LinkInMarkdownOfLinkMarkdown` | app.py:215 | the link can be read back from the success markdown, so the markdown shows exactly the form link |
| `Orchestrator.Submit` | app.py:137-215 | the form is created first with the composed title. A failed create aborts with nothing else done, and a failed batch update aborts after the batch. Otherwise the form is filed into the fixed folder, and a failed move only shows a warning. The audit row (timestamp, trainer, college, title, link) is then appended whatever the move did. Success and the link are reported exactly when create, batch update and append all succeed |

## Left out

- Streamlit rendering: the CSS and HTML blocks, the logo, the widget layout and the button (app.py:33-137). The widget values and the button press are inputs to the model.
- Credential loading, API scopes, building the service clients and opening the sheet (app.py:14-29). This is configuration of vendor libraries. Their only effect on the model is the outcomes in `Services`.
- The remote calls `forms().create`, `batchUpdate`, `files().update` and `append_row` (app.py:145, 199, 203-206, 212). They are network I/O. Each one becomes an outcome in `Services`: a form id or an error, and pass or fail for the others.
- The timestamp from `datetime.now().strftime` (app.py:211). It is clock input and is passed to `Submit` as a string.
- The QR code and its PNG and base64 embedding (app.py:217-229). These are image and encoding libraries. The model stops after the link is shown.
- How Streamlit displays an exception it does not catch. An error from create, batch update or append ends the run as `Aborted` with the error's text.
- Which option the "Correct Answer" selector points at is modelled as a slot 0..3, not as a value. When two options have the same text, the source cannot tell them apart, but the stored answer value is the same either way.
