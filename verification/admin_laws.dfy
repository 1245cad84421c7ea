/** How the admin portal's handlers compose: the add and edit flows share one
    draft and are not mutually exclusive, cancelling forgets everything local,
    failed saves can be retried unchanged, and locally rejected actions do not
    depend on what the service would have answered. */
module AdminLaws {

  import opened Options
  import opened Questions
  import opened Drafts
  import opened AdminPortal
  import QuestionApi

  /** Opening the add form while a question is being edited keeps the edit
      open: both forms are shown at once, on the same (now empty) draft. */
  lemma AddKeepsEditOpen(s: State, q: Question)
    ensures var r := ClickAdd(StartEdit(s, q));
      r.editingId == Some(q.id) && r.showAddForm && r.form == Empty
  {
  }

  /** Starting an edit while the add form is open keeps the add form open,
      and the add form now shows the edited question's values. */
  lemma EditKeepsAddOpen(s: State, q: Question)
    ensures var r := StartEdit(ClickAdd(s), q);
      r.editingId == Some(q.id) && r.showAddForm && r.form == FromQuestion(q)
  {
  }

  /** Because the draft is shared and updates are not validated, opening the
      add form during an edit and then pressing "Update" overwrites the edited
      question with empty texts. */
  lemma UpdateAfterAddSendsEmptyQuestion(s: State, q: Question, refetch: QuestionApi.FetchOutcome)
    ensures HandleUpdate(ClickAdd(StartEdit(s, q)), q.id, Answered(true), refetch).requests[0]
      == PutQuestion(q.id, Body("", ["", "", "", ""], 0))
  {
  }

  /** Only one question is edited at a time: a second `startEdit` silently
      discards the first one's draft. */
  lemma SecondEditReplacesFirst(s: State, a: Question, b: Question)
    ensures StartEdit(StartEdit(s, a), b) == StartEdit(s, b)
  {
  }

  /** Saving an edit that changed nothing resends the question as loaded. */
  lemma UnchangedEditResendsQuestion(s: State, q: Question, put: Reply, refetch: QuestionApi.FetchOutcome)
    ensures HandleUpdate(StartEdit(s, q), q.id, put, refetch).requests[0]
      == PutQuestion(q.id, Body(q.question, q.options, q.correctAnswer))
  {
  }

  /** Cancelling forgets every local action: field edits, a started edit and
      an opened add form leave no trace, and cancelling twice is cancelling
      once. */
  lemma CancelForgetsLocalActions(s: State, q: Question, e: FieldEdit)
    requires ValidEdit(e)
    ensures CancelEdit(OnChange(s, e)) == CancelEdit(s)
    ensures CancelEdit(StartEdit(s, q)) == CancelEdit(s)
    ensures CancelEdit(ClickAdd(s)) == CancelEdit(s)
    ensures CancelEdit(CancelEdit(s)) == CancelEdit(s)
  {
  }

  /** A failed create keeps the draft, so a retry sends the very same body. */
  lemma FailedAddCanBeRetried(s: State, first: Reply, again: Reply, f1: QuestionApi.FetchOutcome, f2: QuestionApi.FetchOutcome)
    requires !Succeeded(first)
    ensures HandleAdd(HandleAdd(s, first, f1).state, again, f2) == HandleAdd(s, again, f2)
  {
  }

  /** A failed update keeps `editingId` and the draft, so a retry sends the
      very same request. */
  lemma FailedUpdateCanBeRetried(s: State, id: int, first: Reply, again: Reply, f1: QuestionApi.FetchOutcome, f2: QuestionApi.FetchOutcome)
    requires !Succeeded(first)
    ensures HandleUpdate(HandleUpdate(s, id, first, f1).state, id, again, f2) == HandleUpdate(s, id, again, f2)
  {
  }

  /** An incomplete draft and a declined confirm are decided locally: what
      the service would have answered makes no difference. */
  lemma LocalRejectionsIgnoreService(s: State, id: int, p1: Reply, p2: Reply, f1: QuestionApi.FetchOutcome, f2: QuestionApi.FetchOutcome)
    ensures !Complete(s.form) ==> HandleAdd(s, p1, f1) == HandleAdd(s, p2, f2)
    ensures HandleDelete(s, id, false, p1, f1) == HandleDelete(s, id, false, p2, f2)
  {
  }

  /** The portal and the exam client read the same envelope differently:
      they agree on a usable answer, but a successful empty list empties the
      portal while the client falls back. */
  lemma PortalAndClientOnSameAnswer(s: State, o: QuestionApi.FetchOutcome, fallback: seq<Question>)
    ensures QuestionApi.Usable(o) ==>
      FetchQuestions(s, o).state.questions == Loaded(QuestionApi.FetchExamQuestions(o, fallback))
    ensures o == QuestionApi.Envelope(true, Some([])) ==>
      FetchQuestions(s, o).state.questions == Loaded([])
      && QuestionApi.FetchExamQuestions(o, fallback) == fallback
  {
  }

  /** Resetting forgets any field edits and is idempotent; it touches only
      the draft, so a reset keeps the add form and the edit open. */
  lemma ResetForgetsFieldEdits(s: State, e: FieldEdit)
    requires ValidEdit(e)
    ensures ResetForm(OnChange(s, e)) == ResetForm(s)
    ensures ResetForm(ResetForm(s)) == ResetForm(s)
    ensures CancelEdit(s) == ResetForm(s.(editingId := None, showAddForm := false))
  {
  }

}
