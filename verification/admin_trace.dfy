/** Runs of the admin portal: a sequence of user actions, each carrying the
    answer the service (or the confirm dialog) gave, applied from any state.
    The properties here hold for every such sequence. */
module AdminTrace {

  import opened Options
  import opened Questions
  import opened Drafts
  import opened AdminPortal
  import QuestionApi

  /** One user action, or the mount effect that loads the list. */
  datatype Event =
    | Mount(load: QuestionApi.FetchOutcome)
    | AddClicked
    | EditClicked(q: Question)
    | CancelClicked
    | Changed(edit: FieldEdit)
    | SaveClicked(post: Reply, refetch: QuestionApi.FetchOutcome)
    | UpdateClicked(id: int, put: Reply, refetch: QuestionApi.FetchOutcome)
    | DeleteClicked(id: int, confirmed: bool, del: Reply, refetch: QuestionApi.FetchOutcome)

  /** The form only produces option numbers 1 to 4. */
  predicate WellFormed(e: Event) {
    e.Changed? ==> ValidEdit(e.edit)
  }

  predicate AllWellFormed(es: seq<Event>) {
    forall i | 0 <= i < |es| :: WellFormed(es[i])
  }

  /** Actions that stay inside the browser. */
  predicate Local(e: Event) {
    e.AddClicked? || e.EditClicked? || e.CancelClicked? || e.Changed?
  }

  /** The listings a list answer can install. */
  function Served(o: QuestionApi.FetchOutcome): set<Listing> {
    match o
    case TransportError => {}
    case Envelope(success, data) =>
      if !success then {}
      else match data
        case Some(qs) => {Loaded(qs)}
        case None => {Undefined}
  }

  /** Every listing some list answer of the event could install. */
  function ServedBy(e: Event): set<Listing> {
    match e
    case Mount(load) => Served(load)
    case SaveClicked(_, refetch) => Served(refetch)
    case UpdateClicked(_, _, refetch) => Served(refetch)
    case DeleteClicked(_, _, _, refetch) => Served(refetch)
    case _ => {}
  }

  function ServedByAll(es: seq<Event>): set<Listing>
    decreases |es|
  {
    if es == [] then {} else ServedBy(es[0]) + ServedByAll(es[1..])
  }

  /** The ids the admin confirmed a deletion for. */
  function ConfirmedDeletes(es: seq<Event>): set<int>
    decreases |es|
  {
    if es == [] then {}
    else
      var e := es[0];
      (if e.DeleteClicked? && e.confirmed then {e.id} else {}) + ConfirmedDeletes(es[1..])
  }

  /** Every create sent passed the completeness check, every delete sent was
      confirmed for that id, and the list changes only to what the service
      served. */
  predicate Sound(s: State, e: Event, r: Step) {
    && (forall i | 0 <= i < |r.requests| && r.requests[i].PostQuestion? :: CompleteBody(r.requests[i].body))
    && (forall i | 0 <= i < |r.requests| && r.requests[i].DeleteQuestion? ::
          e.DeleteClicked? && e.confirmed && r.requests[i].id == e.id)
    && (r.state.questions == s.questions || r.state.questions in ServedBy(e))
  }

  function Apply(s: State, e: Event): (r: Step)
    requires WellFormed(e)
    ensures Sound(s, e, r)
    ensures Local(e) ==> r.requests == [] && r.toasts == [] && r.state.questions == s.questions
  {
    match e
    case Mount(load) => FetchQuestions(s, load)
    case AddClicked => Step(ClickAdd(s), [], [])
    case EditClicked(q) => Step(StartEdit(s, q), [], [])
    case CancelClicked => Step(CancelEdit(s), [], [])
    case Changed(edit) => Step(OnChange(s, edit), [], [])
    case SaveClicked(post, refetch) => HandleAdd(s, post, refetch)
    case UpdateClicked(id, put, refetch) => HandleUpdate(s, id, put, refetch)
    case DeleteClicked(id, confirmed, del, refetch) => HandleDelete(s, id, confirmed, del, refetch)
  }

  /** The combined effect of a run: the final state, every request sent and
      every toast shown, in order. */
  function Run(s: State, es: seq<Event>): (r: Step)
    requires AllWellFormed(es)
    ensures forall i | 0 <= i < |r.requests| && r.requests[i].PostQuestion? :: CompleteBody(r.requests[i].body)
    ensures forall i | 0 <= i < |r.requests| && r.requests[i].DeleteQuestion? ::
      r.requests[i].id in ConfirmedDeletes(es)
    ensures r.state.questions == s.questions || r.state.questions in ServedByAll(es)
    decreases |es|
  {
    if es == [] then Step(s, [], [])
    else
      var a := Apply(s, es[0]);
      var b := Run(a.state, es[1..]);
      Step(b.state, a.requests + b.requests, a.toasts + b.toasts)
  }

  /** Whatever the admin does and whatever the service answers, the draft's
      correct answer stays one of the four options, provided the questions
      opened for editing carry an index into the four options: the radio buttons
      only offer 1 to 4, and resets select the first option. */
  lemma {:induction false} AnswerStaysInRange(s: State, es: seq<Event>)
    requires AllWellFormed(es)
    requires AnswerInRange(s.form.correctAnswer)
    requires forall i | 0 <= i < |es| && es[i].EditClicked? :: AnswerInRange(es[i].q.correctAnswer)
    ensures AnswerInRange(Run(s, es).state.form.correctAnswer)
    decreases |es|
  {
    if es != [] {
      var a := Apply(s, es[0]);
      assert AnswerInRange(a.state.form.correctAnswer) by {
        match es[0]
        case EditClicked(q) =>
        case Changed(edit) =>
        case _ =>
      }
      assert forall i | 0 <= i < |es[1..]| && es[1..][i].EditClicked? :: AnswerInRange(es[1..][i].q.correctAnswer) by {
        forall i | 0 <= i < |es[1..]| && es[1..][i].EditClicked?
          ensures AnswerInRange(es[1..][i].q.correctAnswer)
        {
          assert es[1..][i] == es[i + 1];
        }
      }
      AnswerStaysInRange(a.state, es[1..]);
    }
  }

  /** Purely local actions never reach the service: no request, no toast,
      and the question list is untouched. */
  lemma {:induction false} LocalRunsStayLocal(s: State, es: seq<Event>)
    requires AllWellFormed(es)
    requires forall i | 0 <= i < |es| :: Local(es[i])
    ensures Run(s, es).requests == [] && Run(s, es).toasts == []
    ensures Run(s, es).state.questions == s.questions
    decreases |es|
  {
    if es != [] {
      assert Local(es[0]);
      var a := Apply(s, es[0]);
      LocalRunsStayLocal(a.state, es[1..]);
    }
  }

  /** After the first list fetch serves `q`, editing it and then pressing
      the add button leaves both forms open on one empty draft. */
  lemma AddAndEditCoexistAfterLoad(q: Question)
    ensures var r := Run(Init(), [Mount(QuestionApi.Envelope(true, Some([q]))), EditClicked(q), AddClicked]).state;
      r.questions == Loaded([q]) && r.editingId == Some(q.id) && r.showAddForm && r.form == Empty
  {
    var es := [Mount(QuestionApi.Envelope(true, Some([q]))), EditClicked(q), AddClicked];
    var loaded := FetchQuestions(Init(), es[0].load).state;
    var editing := StartEdit(loaded, q);
    assert es[1..] == [EditClicked(q), AddClicked];
    assert es[1..][1..] == [AddClicked];
    assert [AddClicked][1..] == [];
    assert Run(editing, [AddClicked]).state == ClickAdd(editing);
    assert Run(loaded, es[1..]).state == Run(editing, [AddClicked]).state;
    assert Run(Init(), es).state == Run(loaded, es[1..]).state;
  }

}
