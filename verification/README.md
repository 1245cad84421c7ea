# Exam front end: question fallback client and admin question editor

A Dafny model of the two pieces of decision logic in an exam front end.

- **The exam question client** (`fetchExamQuestions`). It reads the question collection from the exam service. It returns the service's list only when the envelope says `success` and the list is non-empty. In every other case it returns the bundled fallback list, and it never throws.
- **The admin portal's question editor.** Its state is the question list, the id of the question being edited, whether the add form is open, and one shared draft form: the question text, four option texts and the correct-answer index. Its transitions are:
  - the add button, start edit, cancel and reset;
  - field and radio edits;
  - create, update and delete, each of which re-fetches the list after it succeeds;
  - the list fetch itself.

The network is replaced by the outcome it produced. This is a `FetchOutcome` for a list read and a `Reply` for a mutation. The confirm dialog's answer is a `bool`. Every handler is a pure function from the state and these outcomes to a `Step`: the new state, the requests sent (in order) and the toasts shown (in order). "Sends no request" therefore means "the step's request list is empty". The bundled fallback list is not known. It is a parameter of `FetchExamQuestions`, so every property holds for every fallback list.

Modules follow the program's structure:
- `Options` holds the optional type.
- `Questions` holds the question record, which has exactly four options.
- `QuestionApi` is the client.
- `Drafts` holds the draft form and its field edits.
- `AdminPortal` holds the state and handlers.
- `AdminLaws` holds how the handlers compose.
- `AdminTrace` covers arbitrary runs of user actions.

## Behaviour worth knowing

- **Adding and editing are not mutually exclusive.** The add button (`AdminPortal.tsx:323`) leaves `editingId` set, and `startEdit` (`AdminPortal.tsx:178-188`) leaves the add form open. Both forms can therefore be open at once on one shared draft. `AdminLaws.AddKeepsEditOpen`, `AdminLaws.EditKeepsAddOpen` and `AdminTrace.AddAndEditCoexistAfterLoad` state this. Updates are not validated. So pressing "Update" after opening the add form sends the edited question with empty texts (`AdminLaws.UpdateAfterAddSendsEmptyQuestion`).
- **A `success: false` reply to a create, update or delete shows no toast at all.** Only the exception path shows an error toast. The state is kept in both cases.
- **The portal's list fetch has no fallback.** A successful empty list empties the portal, while the exam client falls back (`AdminLaws.PortalAndClientOnSameAnswer`). A successful envelope without `data` stores `undefined` as the list. The model keeps this as `Listing.Undefined`.

## Model

| member | source | states |
|---|---|---|
| QuestionApi.TryBlock | src/services/questionApi.ts:15-24 | The try block throws exactly on a transport/parse failure or on a `success` envelope with no `data` field. Otherwise it returns the remote data when that data is usable and the fallback when it is not. |
| QuestionApi.FetchExamQuestions | src/services/questionApi.ts:14-30 | A total function. Success with a non-empty list returns exactly that list. Every other outcome returns the fallback list. |
| QuestionApi.ResultIsOneSource | src/services/questionApi.ts:19-28 | The result is never a merge. It equals the fallback exactly when the remote data is unusable or equals the fallback. Otherwise it is the remote data verbatim. |
| QuestionApi.FailuresFallBack | src/services/questionApi.ts:19-28 | A transport failure, `success: false`, an empty list and a missing `data` field each yield the fallback list. |
| Drafts.ApplyEdit | src/components/AdminPortal.tsx:347-362 | A text edit sets exactly that input and keeps every other input and the radio choice. Radio `num` in 1..4 sets the answer to `num - 1`, which is in 0..3, and keeps every text. |
| Drafts.Complete | src/components/AdminPortal.tsx:104 | The add check's five explicit emptiness tests pass exactly when every text input of the form is non-empty. |
| Drafts.FromQuestion | src/components/AdminPortal.tsx:180-187 | The loaded draft shows the question's text, its options 1 to 4 in order, and its correct answer. |
| Drafts.DraftDeterminedByInputs | src/components/AdminPortal.tsx:50-57 | Two drafts that agree on all five inputs and on the radio choice are equal: the form holds no other state. |
| AdminPortal.BodyOf | src/components/AdminPortal.tsx:117-121 | The request body carries the draft's question text, options 1 to 4 in order, and correct answer. |
| AdminPortal.CompleteBodyOf | src/components/AdminPortal.tsx:104-121 | A body has non-empty texts exactly when its draft passes the add check. |
| AdminPortal.Init | src/components/AdminPortal.tsx:43-57 | The mounted state: empty list, no edit, add form closed, every input empty with the first option selected, so the draft fails the add check. |
| AdminPortal.FetchQuestions | src/components/AdminPortal.tsx:64-81 | Sends one list request. On success it installs `data`, or `undefined` when `data` is missing. On `success: false` nothing changes. An exception keeps the state and shows an error toast. The draft, `editingId` and the add form never change. |
| AdminPortal.ResetForm | src/components/AdminPortal.tsx:190-199 | The draft becomes empty with the first option selected. Nothing else changes. |
| AdminPortal.CancelEdit | src/components/AdminPortal.tsx:201-205 | No edit and no add form remain, the draft is empty, and the list is unchanged. |
| AdminPortal.StartEdit | src/components/AdminPortal.tsx:178-188 | The question becomes the one being edited, and the draft shows its values. The add form and the list are unchanged. |
| AdminPortal.ClickAdd | src/components/AdminPortal.tsx:323 | Opens the add form on an empty draft. `editingId` and the list are unchanged. |
| AdminPortal.OnChange | src/components/AdminPortal.tsx:399-419 | A field edit changes only the draft. Radio `num` sets the answer to `num - 1`, which is in 0..3, and keeps every text. A text edit sets its input and keeps the other inputs and the radio choice. |
| AdminPortal.HandleAdd | src/components/AdminPortal.tsx:103-134 | An incomplete draft sends nothing, keeps the state and shows "fill all fields". A complete draft is posted with a complete body. Failure keeps the whole state: an error toast is shown on an exception and none on `success: false`. Success closes the add form, resets the draft, keeps `editingId`, re-fetches, and the list and toasts after "added" are those of that re-fetch. |
| AdminPortal.HandleUpdate | src/components/AdminPortal.tsx:136-158 | The draft is sent unvalidated under the given id. Failure keeps the whole state, including `editingId` and the draft, and shows only error toasts. Success clears `editingId`, resets the draft, keeps the add form, re-fetches, and the list and toasts after "updated" are those of that re-fetch. |
| AdminPortal.HandleDelete | src/components/AdminPortal.tsx:160-176 | A declined confirm sends nothing and changes nothing. A failed delete keeps the state, with an error toast on an exception and none on `success: false`. A successful one re-fetches: the state is the re-fetch's and the toasts are "deleted" followed by the re-fetch's. The draft and both forms never change. |
| AdminLaws.AddKeepsEditOpen | src/components/AdminPortal.tsx:323 | The add button during an edit leaves that edit open and empties the shared draft. |
| AdminLaws.EditKeepsAddOpen | src/components/AdminPortal.tsx:178-188 | Starting an edit while the add form is open leaves the add form open, showing the edited question's values. |
| AdminLaws.UpdateAfterAddSendsEmptyQuestion | src/components/AdminPortal.tsx:136-146 | Edit, then add, then "Update" sends the edited id with empty texts and answer 0. |
| AdminLaws.SecondEditReplacesFirst | src/components/AdminPortal.tsx:178-188 | A second start-edit discards the first edit's draft entirely. |
| AdminLaws.UnchangedEditResendsQuestion | src/components/AdminPortal.tsx:136-146 | Saving an edit that changed nothing sends the question's own text, options and answer. |
| AdminLaws.CancelForgetsLocalActions | src/components/AdminPortal.tsx:201-205 | Cancel after a field edit, a start-edit, the add button, or another cancel equals cancel alone. |
| AdminLaws.FailedAddCanBeRetried | src/components/AdminPortal.tsx:124-133 | After a failed create, a retry behaves exactly as the first attempt would have with the new reply. |
| AdminLaws.FailedUpdateCanBeRetried | src/components/AdminPortal.tsx:148-157 | After a failed update, a retry behaves exactly as the first attempt would have with the new reply. |
| AdminLaws.LocalRejectionsIgnoreService | src/components/AdminPortal.tsx:103-111 | An incomplete add and a declined delete give the same result whatever the service would have replied. |
| AdminLaws.ResetForgetsFieldEdits | src/components/AdminPortal.tsx:190-205 | A reset forgets any field edit and is idempotent, and cancelling is resetting after closing both forms. |
| AdminLaws.PortalAndClientOnSameAnswer | src/components/AdminPortal.tsx:68-70 | On a usable answer the portal's list equals the client's result. On a successful empty list the portal is empty while the client falls back. |
| AdminTrace.Apply | src/components/AdminPortal.tsx:319-431 | Each user action sends only complete creates and only deletes confirmed for that id. The list changes only to a listing the service served. A local action sends nothing, shows nothing and keeps the list. |
| AdminTrace.Run | src/components/AdminPortal.tsx:59-205 | Over any run of actions, every create sent was complete and every delete sent was confirmed for its id. The list is the initial one or one the service served. |
| AdminTrace.AnswerStaysInRange | src/components/AdminPortal.tsx:341-362 | Over any run where the questions opened for editing have an answer in 0..3, the draft's answer stays in 0..3. |
| AdminTrace.LocalRunsStayLocal | src/components/AdminPortal.tsx:178-205 | A run made only of add, edit, cancel and field actions sends no request, shows no toast and keeps the list. |
| AdminTrace.AddAndEditCoexistAfterLoad | src/components/AdminPortal.tsx:323 | After the first fetch lists a question, editing it then pressing add leaves the list as served and both forms open on one empty draft. |

## Left out

- HTTP, JSON parsing and the base URL are left out. Each request is a `Request` value, and each answer is an outcome parameter.
- Logging to the console is left out. It has no effect on state.
- Async interleaving is left out. Each handler is atomic, including the re-fetch it starts after a successful mutation. A reply that arrives after the state has moved on is not modelled.
- `fetchResponses`, the responses table and its refresh button are left out. The responses state is independent of the question state and is only displayed.
- The `loading` and `responsesLoading` flags are left out. `loading` hides every control until the first list fetch settles; the model does not impose that ordering on runs, and `responsesLoading` only disables the responses refresh button.
- The score colour tier is left out. It compares with `total_questions * 0.7` and `* 0.4` in floating point.
- `formatDate` is left out. It depends on locale-specific date formatting.
- Rendering, tabs, navigation and styling are left out. The UI constraints on which buttons are shown (Delete and Edit only on cards not being edited) are not imposed. The run properties hold for every action sequence.
- The contents of the bundled fallback question set are left out. That file is not part of this model.
- JSON values of the wrong type are left out: a non-boolean `success`, a `data` that is not an array, or a question with other than four options. The model's types admit only a boolean flag, a list of questions or a missing field, and four options.
