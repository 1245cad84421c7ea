/** The question-management state of the admin portal and its handlers. Each
    handler is atomic: the answer of the service (or of the confirm dialog)
    is a parameter, and a handler reports the requests it sends and the
    notifications (toasts) it shows alongside the new state. */
module AdminPortal {

  import opened Options
  import opened Questions
  import opened Drafts
  import QuestionApi

  /** The `questions` state. A successful envelope without `data` stores
      `undefined` there, which is kept apart from a loaded list. */
  datatype Listing = Loaded(items: seq<Question>) | Undefined

  datatype State = State(
    questions: Listing,
    editingId: Option<int>,
    showAddForm: bool,
    form: Draft)

  /** The state on mount: no questions, nothing being edited, add form closed. */
  function Init(): (s: State)
    ensures s.questions == Loaded([]) && s.editingId == None && !s.showAddForm
    ensures forall k | ValidField(k) :: Text(s.form, k) == ""
    ensures s.form.correctAnswer == 0 && !Complete(s.form)
  {
    State(Loaded([]), None, false, Empty)
  }

  /** The JSON body of a create or update: `{ question, options, correct_answer }`. */
  datatype Body = Body(question: string, options: OptionTexts, correctAnswer: int)

  /** The requests the portal sends to the question service. */
  datatype Request =
    | GetQuestions
    | PostQuestion(body: Body)
    | PutQuestion(id: int, body: Body)
    | DeleteQuestion(id: int)

  /** What a mutation request produced: `fetch` or `res.json()` threw, or an
      envelope with its `success` flag arrived. */
  datatype Reply = Thrown | Answered(success: bool)

  predicate Succeeded(r: Reply) {
    r.Answered? && r.success
  }

  /** The toasts the portal shows, one constructor per message. */
  datatype Toast =
    | LoadFailed
    | FillAllFields
    | Added
    | AddFailed
    | Updated
    | UpdateFailed
    | Deleted
    | DeleteFailed

  /** Toasts shown with the destructive variant. */
  predicate IsError(t: Toast) {
    t.LoadFailed? || t.FillAllFields? || t.AddFailed? || t.UpdateFailed? || t.DeleteFailed?
  }

  /** The effect of one handler. */
  datatype Step = Step(state: State, requests: seq<Request>, toasts: seq<Toast>)

  /** The body sent for a draft. */
  function BodyOf(d: Draft): (b: Body)
    ensures b.question == Text(d, QuestionField)
    ensures forall num | 1 <= num <= 4 :: b.options[num - 1] == Text(d, OptionField(num))
    ensures b.correctAnswer == d.correctAnswer
  {
    Body(d.question, d.options, d.correctAnswer)
  }

  /** A draft's body is complete exactly when the draft passes the add check. */
  predicate CompleteBody(b: Body) {
    b.question != "" && forall i | 0 <= i < 4 :: b.options[i] != ""
  }

  lemma CompleteBodyOf(d: Draft)
    ensures CompleteBody(BodyOf(d)) <==> Complete(d)
  {
    var b := BodyOf(d);
    if CompleteBody(b) {
      assert b.options[0] != "" && b.options[1] != "" && b.options[2] != "" && b.options[3] != "";
    }
  }

  /** `fetchQuestions`: on `success` the list becomes the returned `data`
      (possibly empty, or `undefined` when the field is missing); on
      `success: false` nothing changes and nothing is shown; on an exception
      the list is kept and an error toast is shown. The draft is never touched. */
  function FetchQuestions(s: State, o: QuestionApi.FetchOutcome): (r: Step)
    ensures r.requests == [GetQuestions]
    ensures r.state.editingId == s.editingId && r.state.showAddForm == s.showAddForm
    ensures r.state.form == s.form
    ensures o.Envelope? && o.success && o.data.Some? ==> r.state.questions == Loaded(o.data.value)
    ensures o.Envelope? && o.success && o.data.None? ==> r.state.questions == Undefined
    ensures !(o.Envelope? && o.success) ==> r.state == s
    ensures r.toasts == (if o.TransportError? then [LoadFailed] else [])
  {
    match o
    case TransportError => Step(s, [GetQuestions], [LoadFailed])
    case Envelope(success, data) =>
      if !success then Step(s, [GetQuestions], [])
      else
        var listing := match data case Some(qs) => Loaded(qs) case None => Undefined;
        Step(s.(questions := listing), [GetQuestions], [])
  }

  /** `resetForm`. */
  function ResetForm(s: State): (r: State)
    ensures r.form == Empty
    ensures r.questions == s.questions && r.editingId == s.editingId && r.showAddForm == s.showAddForm
  {
    s.(form := Empty)
  }

  /** `cancelEdit`: closes both the edit form and the add form and discards
      the draft, without contacting the service. */
  function CancelEdit(s: State): (r: State)
    ensures r.editingId == None && !r.showAddForm && r.form == Empty
    ensures r.questions == s.questions
  {
    ResetForm(s.(editingId := None, showAddForm := false))
  }

  /** `startEdit(q)`: puts `q` in the edit form and loads its values into the
      draft. The add form is left as it is. */
  function StartEdit(s: State, q: Question): (r: State)
    ensures r.editingId == Some(q.id)
    ensures Text(r.form, QuestionField) == q.question
    ensures forall num | 1 <= num <= 4 :: Text(r.form, OptionField(num)) == q.options[num - 1]
    ensures r.form.correctAnswer == q.correctAnswer
    ensures r.showAddForm == s.showAddForm && r.questions == s.questions
  {
    s.(editingId := Some(q.id), form := FromQuestion(q))
  }

  /** The "Add Question" button: opens the add form on an empty draft. It
      does not clear `editingId`. */
  function ClickAdd(s: State): (r: State)
    ensures r.showAddForm && r.form == Empty
    ensures r.editingId == s.editingId && r.questions == s.questions
  {
    ResetForm(s.(showAddForm := true))
  }

  /** A field or radio `onChange` in either form. */
  function OnChange(s: State, e: FieldEdit): (r: State)
    requires ValidEdit(e)
    ensures r.questions == s.questions && r.editingId == s.editingId && r.showAddForm == s.showAddForm
    ensures e.SelectCorrect? ==> r.form.correctAnswer == e.num - 1 && AnswerInRange(r.form.correctAnswer)
    ensures e.SelectCorrect? ==> forall k | ValidField(k) :: Text(r.form, k) == Text(s.form, k)
    ensures e.SetText? ==> Text(r.form, e.field) == e.value && r.form.correctAnswer == s.form.correctAnswer
    ensures e.SetText? ==> forall k | ValidField(k) && k != e.field :: Text(r.form, k) == Text(s.form, k)
  {
    s.(form := ApplyEdit(s.form, e))
  }

  /** `handleAdd`: an incomplete draft is rejected locally with a toast and
      no request. Otherwise the draft is posted; on success the add form
      closes, the draft resets and the list is fetched again; on
      `success: false` nothing happens at all; on an exception an error toast
      is shown and the state is kept. */
  function HandleAdd(s: State, post: Reply, refetch: QuestionApi.FetchOutcome): (r: Step)
    ensures !Complete(s.form) ==> r == Step(s, [], [FillAllFields])
    ensures !Succeeded(post) ==> forall t | t in r.toasts :: IsError(t)
    ensures Complete(s.form) ==> |r.requests| > 0 && r.requests[0] == PostQuestion(BodyOf(s.form))
    ensures forall i | 0 <= i < |r.requests| && r.requests[i].PostQuestion? :: CompleteBody(r.requests[i].body)
    ensures Complete(s.form) && !Succeeded(post) ==> r.state == s && |r.requests| == 1
    ensures Complete(s.form) && post.Thrown? ==> r.toasts == [AddFailed]
    ensures Complete(s.form) && post == Answered(false) ==> r.toasts == []
    ensures Complete(s.form) && Succeeded(post) ==>
      && !r.state.showAddForm && r.state.form == Empty && r.state.editingId == s.editingId
      && r.requests == [PostQuestion(BodyOf(s.form)), GetQuestions]
      && r.state.questions == FetchQuestions(s, refetch).state.questions
      && r.toasts == [Added] + FetchQuestions(s, refetch).toasts
  {
    if !Complete(s.form) then Step(s, [], [FillAllFields])
    else
      var sent := PostQuestion(BodyOf(s.form));
      CompleteBodyOf(s.form);
      match post
      case Thrown => Step(s, [sent], [AddFailed])
      case Answered(success) =>
        if !success then Step(s, [sent], [])
        else
          var refreshed := FetchQuestions(ResetForm(s.(showAddForm := false)), refetch);
          Step(refreshed.state, [sent] + refreshed.requests, [Added] + refreshed.toasts)
  }

  /** `handleUpdate(id)`: no validation. The draft is sent as it is; on
      success the edit form closes, the draft resets and the list is fetched
      again; otherwise the state is kept so the same update can be retried. */
  function HandleUpdate(s: State, id: int, put: Reply, refetch: QuestionApi.FetchOutcome): (r: Step)
    ensures |r.requests| > 0 && r.requests[0] == PutQuestion(id, BodyOf(s.form))
    ensures !Succeeded(put) ==> r.state == s && |r.requests| == 1
    ensures !Succeeded(put) ==> forall t | t in r.toasts :: IsError(t)
    ensures put.Thrown? ==> r.toasts == [UpdateFailed]
    ensures put == Answered(false) ==> r.toasts == []
    ensures Succeeded(put) ==>
      && r.state.editingId == None && r.state.form == Empty && r.state.showAddForm == s.showAddForm
      && r.requests == [PutQuestion(id, BodyOf(s.form)), GetQuestions]
      && r.state.questions == FetchQuestions(s, refetch).state.questions
      && r.toasts == [Updated] + FetchQuestions(s, refetch).toasts
  {
    var sent := PutQuestion(id, BodyOf(s.form));
    match put
    case Thrown => Step(s, [sent], [UpdateFailed])
    case Answered(success) =>
      if !success then Step(s, [sent], [])
      else
        var refreshed := FetchQuestions(ResetForm(s.(editingId := None)), refetch);
        Step(refreshed.state, [sent] + refreshed.requests, [Updated] + refreshed.toasts)
  }

  /** `handleDelete(id)`: a declined confirm sends nothing and changes
      nothing. A confirmed delete is sent; on success the list is fetched
      again, otherwise the state is kept. The draft and both forms are never
      touched. */
  function HandleDelete(s: State, id: int, confirmed: bool, del: Reply, refetch: QuestionApi.FetchOutcome): (r: Step)
    ensures !confirmed ==> r == Step(s, [], [])
    ensures confirmed ==> |r.requests| > 0 && r.requests[0] == DeleteQuestion(id)
    ensures confirmed && !Succeeded(del) ==> r.state == s && |r.requests| == 1
    ensures confirmed && del.Thrown? ==> r.toasts == [DeleteFailed]
    ensures confirmed && del == Answered(false) ==> r.toasts == []
    ensures !Succeeded(del) ==> forall t | t in r.toasts :: IsError(t)
    ensures confirmed && Succeeded(del) ==> r.requests == [DeleteQuestion(id), GetQuestions]
    ensures confirmed && Succeeded(del) ==>
      r.state == FetchQuestions(s, refetch).state && r.toasts == [Deleted] + FetchQuestions(s, refetch).toasts
    ensures r.state.form == s.form && r.state.editingId == s.editingId && r.state.showAddForm == s.showAddForm
  {
    if !confirmed then Step(s, [], [])
    else
      match del
      case Thrown => Step(s, [DeleteQuestion(id)], [DeleteFailed])
      case Answered(success) =>
        if !success then Step(s, [DeleteQuestion(id)], [])
        else
          var refreshed := FetchQuestions(s, refetch);
          Step(refreshed.state, [DeleteQuestion(id)] + refreshed.requests, [Deleted] + refreshed.toasts)
  }

}
