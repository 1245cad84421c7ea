/** The admin portal's draft form (`formData`): the question text, the four
    option texts and the selected correct answer, shared by the add form and
    the edit form. The form addresses the options by building the key
    `option${num}`; here they are one four-element sequence indexed by
    `num - 1`. */
module Drafts {

  import opened Questions

  datatype Draft = Draft(question: string, options: OptionTexts, correctAnswer: int)

  /** The value `resetForm` installs: empty texts, first option selected. */
  const Empty: Draft := Draft("", ["", "", "", ""], 0)

  /** The text inputs of the form; `OptionField(num)` is `option${num}`. */
  datatype TextField = QuestionField | OptionField(num: int)

  /** The form renders option inputs for `num` in 1..4 only. */
  predicate ValidField(k: TextField) {
    k.OptionField? ==> 1 <= k.num <= 4
  }

  /** The current value of one text input. */
  function Text(d: Draft, k: TextField): string
    requires ValidField(k)
  {
    match k
    case QuestionField => d.question
    case OptionField(num) => d.options[num - 1]
  }

  /** One `onChange` of the form: typing into a text input, or choosing the
      radio button of option `num`. */
  datatype FieldEdit = SetText(field: TextField, value: string) | SelectCorrect(num: int)

  predicate ValidEdit(e: FieldEdit) {
    match e
    case SetText(k, _) => ValidField(k)
    case SelectCorrect(num) => 1 <= num <= 4
  }

  /** `setFormData({ ...formData, <field>: <value> })`: the spread keeps every
      other field; a radio choice stores the zero-based index `num - 1`. */
  function ApplyEdit(d: Draft, e: FieldEdit): (r: Draft)
    requires ValidEdit(e)
    ensures e.SetText? ==> Text(r, e.field) == e.value
    ensures e.SetText? ==> r.correctAnswer == d.correctAnswer
    ensures e.SetText? ==> forall k | ValidField(k) && k != e.field :: Text(r, k) == Text(d, k)
    ensures e.SelectCorrect? ==> r.correctAnswer == e.num - 1 && AnswerInRange(r.correctAnswer)
    ensures e.SelectCorrect? ==> forall k | ValidField(k) :: Text(r, k) == Text(d, k)
  {
    match e
    case SetText(QuestionField, v) => d.(question := v)
    case SetText(OptionField(num), v) => d.(options := d.options[num - 1 := v])
    case SelectCorrect(num) => d.(correctAnswer := num - 1)
  }

  /** The check `handleAdd` makes before sending anything: the question and
      each of the four options are non-empty strings. Whitespace counts as
      content, as it does for JavaScript truthiness. The five explicit checks
      are exactly "every text input is filled". */
  function Complete(d: Draft): (b: bool)
    ensures b <==> forall k | ValidField(k) :: Text(d, k) != ""
  {
    assert Text(d, QuestionField) == d.question;
    assert Text(d, OptionField(1)) == d.options[0];
    assert Text(d, OptionField(2)) == d.options[1];
    assert Text(d, OptionField(3)) == d.options[2];
    assert Text(d, OptionField(4)) == d.options[3];
    d.question != "" && d.options[0] != "" && d.options[1] != ""
    && d.options[2] != "" && d.options[3] != ""
  }

  /** The draft `startEdit` loads from a question. */
  function FromQuestion(q: Question): (d: Draft)
    ensures Text(d, QuestionField) == q.question
    ensures forall num | 1 <= num <= 4 :: Text(d, OptionField(num)) == q.options[num - 1]
    ensures d.correctAnswer == q.correctAnswer
  {
    Draft(q.question, q.options, q.correctAnswer)
  }

  /** Two drafts agreeing on every input are the same draft: the form has no
      state besides its inputs and the radio choice. */
  lemma DraftDeterminedByInputs(a: Draft, b: Draft)
    requires forall k | ValidField(k) :: Text(a, k) == Text(b, k)
    requires a.correctAnswer == b.correctAnswer
    ensures a == b
  {
    assert Text(a, QuestionField) == Text(b, QuestionField);
    forall i | 0 <= i < 4
      ensures a.options[i] == b.options[i]
    {
      assert Text(a, OptionField(i + 1)) == Text(b, OptionField(i + 1));
    }
  }

}
