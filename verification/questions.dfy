/** The question record shared by the question client and the admin portal. */
module Questions {

  /** The four answer texts of a question, in display order (A to D). */
  type OptionTexts = s: seq<string> | |s| == 4 witness ["", "", "", ""]

  /** A multiple-choice question as the question service returns it. The
      service assigns `id`; `correctAnswer` is meant to index `options`, but
      nothing on the client checks what the service sends. */
  datatype Question = Question(id: int, question: string, options: OptionTexts, correctAnswer: int)

  /** A correct-answer index that is an index into the four options. */
  predicate AnswerInRange(answer: int) {
    0 <= answer < 4
  }

}
