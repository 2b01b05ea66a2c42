/** The form component's state and its transitions: answering, editing the identity
    fields, and the guarded, suspended submission. */
module Form {
  import opened Wrappers
  import opened Scoring
  import opened Validation
  import opened Submission

  /** What a submission in flight has captured when it started: the body it sent, and the
      name and total its completion reports (the values of the rendering that submitted). */
  datatype Request = Request(body: FormData, name: string, total: int)

  class FormController {
    var name: string
    var email: string
    var consent: bool
    var answers: Answers
    var qol: Option<int>
    var loading: bool
    var serverMsg: Option<string>
    var serverError: Option<string>
    var submittedTotal: Option<int>

    /** The state of a freshly loaded page. */
    constructor ()
      ensures name == "" && email == "" && !consent && answers == map[] && qol == None
      ensures !loading && serverMsg == None && serverError == None && submittedTotal == None
    {
      name, email, consent, answers, qol := "", "", false, map[], None;
      loading, serverMsg, serverError, submittedTotal := false, None, None, None;
    }

    /** The live total. */
    function Total(): int
      reads this`answers
    {
      Scoring.Total(answers)
    }

    predicate CanSubmit()
      reads this`name, this`email, this`consent, this`answers, this`loading
    {
      Submittable(name, email, consent, answers, loading)
    }

    method SetName(s: string)
      modifies this`name
      ensures name == s
    {
      name := s;
    }

    method SetEmail(s: string)
      modifies this`email
      ensures email == s
    {
      email := s;
    }

    method SetConsent(b: bool)
      modifies this`consent
      ensures consent == b
    {
      consent := b;
    }

    /** The quality-of-life input: an empty field or a number, with no range enforced. */
    method SetQol(v: Option<int>)
      modifies this`qol
      ensures qol == v
    {
      qol := v;
    }

    /** `onChangeAnswer`: records `v` for `key`, leaving every other key as it was. */
    method OnChangeAnswer(key: string, v: int)
      modifies this`answers
      ensures answers == old(answers)[key := v]
      ensures forall k | k != key :: (k in answers <==> k in old(answers)) && (k in answers ==> answers[k] == old(answers)[k])
      ensures IsQuestionKey(key) ==> Total() == old(Total()) - AnswerOr0(old(answers), key) + v
      ensures !IsQuestionKey(key) ==> Total() == old(Total())
      ensures old(AnswersInScale(answers)) && InScale(v) ==> AnswersInScale(answers)
    {
      answers := answers[key := v];
      TotalAfterAnswer(old(answers), key, v);
    }

    /** The part of `handleSubmit` before the request is awaited: nothing happens unless the
        gate is open; otherwise `loading` is set, both messages are cleared and the body is
        built from the current fields and the campaign parameters of the page's address
        (`query`, `href`) as that rendering read them. */
    method BeginSubmit(query: map<string, string>, href: string) returns (req: Option<Request>)
      modifies this`loading, this`serverMsg, this`serverError
      ensures req.Some? <==> old(CanSubmit())
      ensures !old(CanSubmit()) ==>
        loading == old(loading) && serverMsg == old(serverMsg) && serverError == old(serverError)
      ensures old(CanSubmit()) ==>
        && loading && serverMsg == None && serverError == None
        && req.value == Request(Payload(name, email, answers, qol, CaptureUtm(query, href)), name, Total())
    {
      if !CanSubmit() {
        return None;
      }
      loading := true;
      serverError := None;
      serverMsg := None;
      var utm := CaptureUtm(query, href);
      var body := BuildFormData(name, email, answers, qol, utm);
      req := Some(Request(body, name, Total()));
    }

    /** The part of `handleSubmit` after the request completes: one message per outcome,
        the recorded total only on success, and `loading` off in every case. On success the
        greeting prints the reply's `total` as it came, while the recorded total falls back
        to the local one. */
    method FinishSubmit(req: Request, outcome: Response)
      modifies this`loading, this`serverMsg, this`serverError, this`submittedTotal
      ensures !loading
      ensures outcome.Ok? ==>
        && submittedTotal == Some(RecordedTotal(outcome.total, req.total))
        && serverMsg == Some(OkMessageAsWritten(req.name, outcome.total))
        && serverError == old(serverError)
      ensures outcome.Rejected? ==>
        && serverError == Some(RejectionMessage(outcome.error))
        && serverMsg == old(serverMsg) && submittedTotal == old(submittedTotal)
      ensures outcome.NetworkFailure? ==>
        && serverError == Some(NetworkErrorMessage)
        && serverMsg == old(serverMsg) && submittedTotal == old(submittedTotal)
    {
      match outcome {
        case Ok(reported) =>
          serverMsg := Some(OkMessageAsWritten(req.name, reported));
          submittedTotal := Some(RecordedTotal(reported, req.total));
        case Rejected(error) =>
          serverError := Some(RejectionMessage(error));
        case NetworkFailure =>
          serverError := Some(NetworkErrorMessage);
      }
      loading := false;
    }

    /** `handleSubmit` when the reply arrives with no edit in between. It never touches the
        answers, the identity fields, consent or `qol`; after any outcome the gate is open
        again if it was open before. */
    method HandleSubmit(query: map<string, string>, href: string, outcome: Response)
      returns (sent: Option<FormData>)
      modifies this`loading, this`serverMsg, this`serverError, this`submittedTotal
      ensures name == old(name) && email == old(email) && consent == old(consent)
      ensures answers == old(answers) && qol == old(qol)
      ensures sent.Some? <==> old(CanSubmit())
      ensures !old(CanSubmit()) ==>
        && loading == old(loading) && serverMsg == old(serverMsg)
        && serverError == old(serverError) && submittedTotal == old(submittedTotal)
      ensures old(CanSubmit()) ==>
        && sent.value == Payload(name, email, answers, qol, CaptureUtm(query, href))
        && !loading && CanSubmit()
      ensures old(CanSubmit()) && outcome.Ok? ==>
        && submittedTotal == Some(RecordedTotal(outcome.total, Total()))
        && serverMsg == Some(OkMessageAsWritten(name, outcome.total)) && serverError == None
      ensures old(CanSubmit()) && outcome.Rejected? ==>
        && serverError == Some(RejectionMessage(outcome.error))
        && serverMsg == None && submittedTotal == old(submittedTotal)
      ensures old(CanSubmit()) && outcome.NetworkFailure? ==>
        && serverError == Some(NetworkErrorMessage)
        && serverMsg == None && submittedTotal == old(submittedTotal)
    {
      var req := BeginSubmit(query, href);
      if req.Some? {
        FinishSubmit(req.value, outcome);
        sent := Some(req.value.body);
      } else {
        sent := None;
      }
    }
  }

  /** Answering a question twice: only the last answer counts, so the total moves by the
      last value and not by the sum of both. */
  method ExampleOverwrite(form: FormController)
    requires "q1" !in form.answers
    modifies form`answers
    ensures form.Total() == old(form.Total()) + 5
    ensures form.answers == old(form.answers)["q1" := 5]
  {
    QuestionKeys("q1");
    form.OnChangeAnswer("q1", 3);
    form.OnChangeAnswer("q1", 5);
  }

  /** A rejected submission and an immediate retry that fails on the network: the reply's
      error is shown, the gate reopens each time, and the answers are untouched. */
  method ExampleRetry(form: FormController, query: map<string, string>, href: string)
    requires form.CanSubmit()
    modifies form
    ensures form.serverError == Some(NetworkErrorMessage) && form.serverMsg == None
    ensures form.Total() == old(form.Total()) && form.CanSubmit()
  {
    var sent := form.HandleSubmit(query, href, Rejected(Some("Duplicate")));
    assert sent.Some?;
    assert form.serverError == Some("Duplicate") && form.serverMsg == None;
    assert form.CanSubmit();

    sent := form.HandleSubmit(query, href, NetworkFailure);
    assert form.serverError == Some(NetworkErrorMessage);
  }
}
