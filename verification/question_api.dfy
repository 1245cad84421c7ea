/** The exam question client: read the question collection from the service
    and fall back to the bundled list whenever the answer is unusable. The
    network is replaced by the outcome it produced, and the bundled list is a
    parameter, so every property below holds for every fallback list. */
module QuestionApi {

  import opened Options
  import opened Questions

  /** What `fetch` followed by `res.json()` produced: either one of them
      rejected, or a parsed envelope. `data == None` is an envelope without a
      `data` field. */
  datatype FetchOutcome =
    | TransportError
    | Envelope(success: bool, data: Option<seq<Question>>)

  /** How the `try` block of the client completes: by returning a list, or by
      throwing into the `catch` block. */
  datatype Completion = Returned(questions: seq<Question>) | Threw

  /** The outcome carries a non-empty collection the service vouches for. */
  predicate Usable(o: FetchOutcome) {
    o.Envelope? && o.success && o.data.Some? && |o.data.value| > 0
  }

  /** The `try` block: `data.success && data.data.length > 0` reads `length`
      of a missing field only when `success` holds, and that read throws. */
  function TryBlock(o: FetchOutcome, fallback: seq<Question>): (c: Completion)
    ensures c.Threw? <==> o.TransportError? || (o.success && o.data.None?)
    ensures c.Returned? && Usable(o) ==> c.questions == o.data.value
    ensures c.Returned? && !Usable(o) ==> c.questions == fallback
  {
    match o
    case TransportError => Threw
    case Envelope(success, data) =>
      if !success then Returned(fallback)
      else if data.None? then Threw
      else if |data.value| > 0 then Returned(data.value)
      else Returned(fallback)
  }

  /** `fetchExamQuestions`: the `catch` block turns every exception into the
      fallback list, so the function is total and never fails. */
  function FetchExamQuestions(o: FetchOutcome, fallback: seq<Question>): (r: seq<Question>)
    ensures Usable(o) ==> r == o.data.value
    ensures !Usable(o) ==> r == fallback
  {
    match TryBlock(o, fallback)
    case Returned(qs) => qs
    case Threw => fallback
  }

  /** The result is one source or the other, never a merge: it equals the
      fallback exactly when the remote data is unusable or happens to equal
      the fallback, and otherwise it is the remote data verbatim. */
  lemma ResultIsOneSource(o: FetchOutcome, fallback: seq<Question>)
    ensures var r := FetchExamQuestions(o, fallback);
      && (r == fallback <==> !Usable(o) || o.data.value == fallback)
      && (r != fallback ==> o.Envelope? && o.data.Some? && r == o.data.value)
  {
  }

  /** Every failure class of the service answer lands on the fallback list:
      a transport or parse failure, `success: false`, an empty collection,
      and a successful envelope without a `data` field. */
  lemma FailuresFallBack(fallback: seq<Question>, data: Option<seq<Question>>)
    ensures FetchExamQuestions(TransportError, fallback) == fallback
    ensures FetchExamQuestions(Envelope(false, data), fallback) == fallback
    ensures FetchExamQuestions(Envelope(true, Some([])), fallback) == fallback
    ensures FetchExamQuestions(Envelope(true, None), fallback) == fallback
  {
  }

}
