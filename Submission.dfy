/** What a submission sends and what comes back: the multipart field list, the
    attribution fields, the endpoint's reply and the messages shown for it. */
module Submission {
  import opened Wrappers
  import opened Text
  import opened Scoring

  /** A multipart form body: its (name, value) entries in the order they were appended. */
  type FormData = seq<(string, string)>

  /** The attribution fields read from the page address, in `Object.entries` order. */
  datatype Utm = Utm(source: string, medium: string, campaign: string, term: string,
                     content: string, pageUrl: string)

  const UtmParams: seq<string> := ["utm_source", "utm_medium", "utm_campaign", "utm_term", "utm_content"]

  /** `urlParams.get(k) || ''`, the query string given as a map from parameter to value. */
  function QueryParam(query: map<string, string>, k: string): string {
    if k in query then query[k] else ""
  }

  function UtmFields(u: Utm): (fd: FormData)
    ensures |fd| == 6
  {
    [("utm_source", u.source), ("utm_medium", u.medium), ("utm_campaign", u.campaign),
     ("utm_term", u.term), ("utm_content", u.content), ("page_url", u.pageUrl)]
  }

  /** The `utm` record: every attribution field is the query parameter of its own name,
      empty when absent, and `page_url` is the page address. */
  function CaptureUtm(query: map<string, string>, href: string): (u: Utm)
    ensures forall i | 0 <= i < |UtmParams| :: UtmFields(u)[i] == (UtmParams[i], QueryParam(query, UtmParams[i]))
    ensures UtmFields(u)[5] == ("page_url", href)
  {
    Utm(QueryParam(query, "utm_source"), QueryParam(query, "utm_medium"),
        QueryParam(query, "utm_campaign"), QueryParam(query, "utm_term"),
        QueryParam(query, "utm_content"), href)
  }

  /** One entry per question, in question order: the decimal text of `answers[q] ?? 0`. */
  function AnswerFields(answers: Answers): (fd: FormData)
    ensures |fd| == |Questions|
  {
    seq(|Questions|, i requires 0 <= i < |Questions| =>
      (Questions[i].key, IntToString(AnswerOr0(answers, Questions[i].key))))
  }

  /** The quality-of-life entry, appended only when the field is not empty. */
  function QolFields(qol: Option<int>): FormData {
    match qol
    case None => []
    case Some(v) => [("qol", IntToString(v))]
  }

  /** The body `handleSubmit` posts. */
  function Payload(name: string, email: string, answers: Answers, qol: Option<int>, utm: Utm): FormData {
    [("name", Trim(name)), ("email", Trim(email))] + AnswerFields(answers) + QolFields(qol) + UtmFields(utm)
  }

  /** `handleSubmit`'s construction of the body: append by append, with a loop over the
      questions and a loop over the attribution entries. */
  method BuildFormData(name: string, email: string, answers: Answers, qol: Option<int>, utm: Utm)
    returns (fd: FormData)
    ensures fd == Payload(name, email, answers, qol, utm)
  {
    fd := [];
    fd := fd + [("name", Trim(name))];
    fd := fd + [("email", Trim(email))];
    for i := 0 to |Questions|
      invariant fd == [("name", Trim(name)), ("email", Trim(email))] + AnswerFields(answers)[..i]
    {
      var q := Questions[i];
      fd := fd + [(q.key, IntToString(AnswerOr0(answers, q.key)))];
      assert AnswerFields(answers)[..i + 1] == AnswerFields(answers)[..i] + [AnswerFields(answers)[i]];
    }
    assert AnswerFields(answers)[..|Questions|] == AnswerFields(answers);
    if qol.Some? {
      fd := fd + [("qol", IntToString(qol.value))];
    }
    var entries := UtmFields(utm);
    ghost var head := fd;
    for i := 0 to |entries|
      invariant fd == head + entries[..i]
    {
      fd := fd + [entries[i]];
      assert entries[..i + 1] == entries[..i] + [entries[i]];
    }
    assert entries[..|entries|] == entries;
  }

  /** The entry names of a body, in order. */
  function Keys(fd: FormData): seq<string> {
    seq(|fd|, i requires 0 <= i < |fd| => fd[i].0)
  }

  /** The field names the endpoint receives, in order: identity, the seven answers, `qol`
      only when given, then the attribution fields. */
  lemma PayloadKeys(name: string, email: string, answers: Answers, qol: Option<int>, utm: Utm)
    ensures Keys(Payload(name, email, answers, qol, utm)) ==
      ["name", "email", "q1", "q2", "q3", "q4", "q5", "q6", "q7"]
      + (if qol.Some? then ["qol"] else [])
      + ["utm_source", "utm_medium", "utm_campaign", "utm_term", "utm_content", "page_url"]
  {
  }

  /** `FormData.get`: the value of the first entry of that name. */
  function FieldValue(fd: FormData, key: string): Option<string> {
    if fd == [] then None else if fd[0].0 == key then Some(fd[0].1) else FieldValue(fd[1..], key)
  }

  lemma {:induction false} FieldValueAt(fd: FormData, key: string, j: int)
    requires 0 <= j < |fd| && fd[j].0 == key
    requires forall i | 0 <= i < j :: fd[i].0 != key
    ensures FieldValue(fd, key) == Some(fd[j].1)
    decreases j
  {
    if j > 0 {
      FieldValueAt(fd[1..], key, j - 1);
    }
  }

  lemma {:induction false} FieldValueAbsent(fd: FormData, key: string)
    requires forall i | 0 <= i < |fd| :: fd[i].0 != key
    ensures FieldValue(fd, key) == None
    decreases |fd|
  {
    if fd != [] {
      FieldValueAbsent(fd[1..], key);
    }
  }

  /** Reads a field through the known layout of the body. */
  lemma PayloadField(name: string, email: string, answers: Answers, qol: Option<int>, utm: Utm, key: string, j: int)
    requires var ks := Keys(Payload(name, email, answers, qol, utm));
      0 <= j < |ks| && ks[j] == key && forall i | 0 <= i < j :: ks[i] != key
    ensures var p := Payload(name, email, answers, qol, utm); FieldValue(p, key) == Some(p[j].1)
  {
    var p := Payload(name, email, answers, qol, utm);
    assert forall i | 0 <= i < |p| :: Keys(p)[i] == p[i].0;
    FieldValueAt(p, key, j);
  }

  lemma PayloadIdentity(name: string, email: string, answers: Answers, qol: Option<int>, utm: Utm)
    ensures var p := Payload(name, email, answers, qol, utm);
      FieldValue(p, "name") == Some(Trim(name)) && FieldValue(p, "email") == Some(Trim(email))
  {
  }

  lemma PayloadAnswer(name: string, email: string, answers: Answers, qol: Option<int>, utm: Utm, i: int)
    requires 0 <= i < |Questions|
    ensures var p := Payload(name, email, answers, qol, utm);
      FieldValue(p, Questions[i].key) == Some(IntToString(AnswerOr0(answers, Questions[i].key)))
  {
    var p := Payload(name, email, answers, qol, utm);
    PayloadKeys(name, email, answers, qol, utm);
    assert p[2 + i] == AnswerFields(answers)[i];
    assert Keys(p)[2 + i] == Questions[i].key;
    PayloadField(name, email, answers, qol, utm, Questions[i].key, 2 + i);
  }

  lemma PayloadQol(name: string, email: string, answers: Answers, qol: Option<int>, utm: Utm)
    ensures var p := Payload(name, email, answers, qol, utm);
      FieldValue(p, "qol") == if qol.Some? then Some(IntToString(qol.value)) else None
  {
    var p := Payload(name, email, answers, qol, utm);
    PayloadKeys(name, email, answers, qol, utm);
    if qol.Some? {
      assert p[9] == QolFields(qol)[0];
      PayloadField(name, email, answers, qol, utm, "qol", 9);
    } else {
      assert forall i | 0 <= i < |p| :: Keys(p)[i] == p[i].0;
      FieldValueAbsent(p, "qol");
    }
  }

  lemma {:induction false} FieldValueConcat(a: FormData, b: FormData, key: string)
    ensures FieldValue(a + b, key) == if FieldValue(a, key).Some? then FieldValue(a, key) else FieldValue(b, key)
    decreases |a|
  {
    if a != [] {
      assert (a + b)[0] == a[0];
      assert (a + b)[1..] == a[1..] + b;
      FieldValueConcat(a[1..], b, key);
    } else {
      assert a + b == b;
    }
  }

  /** The attribution fields are read from their own part of the body: no earlier entry
      shares a name with them. */
  lemma PayloadUtm(name: string, email: string, answers: Answers, qol: Option<int>, utm: Utm)
    ensures var p := Payload(name, email, answers, qol, utm);
      && FieldValue(p, "utm_source") == Some(utm.source)
      && FieldValue(p, "utm_medium") == Some(utm.medium)
      && FieldValue(p, "utm_campaign") == Some(utm.campaign)
      && FieldValue(p, "utm_term") == Some(utm.term)
      && FieldValue(p, "utm_content") == Some(utm.content)
      && FieldValue(p, "page_url") == Some(utm.pageUrl)
  {
    var head := [("name", Trim(name)), ("email", Trim(email))] + AnswerFields(answers) + QolFields(qol);
    var u := UtmFields(utm);
    assert Payload(name, email, answers, qol, utm) == head + u;
    assert forall i | 0 <= i < |Questions| :: Questions[i].key[0] == 'q';
    assert forall i | 0 <= i < |head| :: head[i].0 != [] && head[i].0[0] in {'n', 'e', 'q'};
    forall k | 0 <= k < 6 ensures FieldValue(head + u, u[k].0) == Some(u[k].1) {
      assert u[k].0[0] in {'u', 'p'};
      FieldValueAbsent(head, u[k].0);
      FieldValueAt(u, u[k].0, k);
      FieldValueConcat(head, u, u[k].0);
    }
    assert u[0] == ("utm_source", utm.source) && u[1] == ("utm_medium", utm.medium);
    assert u[2] == ("utm_campaign", utm.campaign) && u[3] == ("utm_term", utm.term);
    assert u[4] == ("utm_content", utm.content) && u[5] == ("page_url", utm.pageUrl);
  }

  /** What the endpoint reads back from the body: the trimmed identity, every answer
      (`answers[q] ?? 0`) recovered from its decimal text, `qol` exactly when it was
      given, and the attribution fields verbatim. */
  lemma PayloadRoundTrip(name: string, email: string, answers: Answers, qol: Option<int>, utm: Utm)
    ensures var p := Payload(name, email, answers, qol, utm);
      && FieldValue(p, "name") == Some(Trim(name))
      && FieldValue(p, "email") == Some(Trim(email))
      && (forall i | 0 <= i < |Questions| ::
            FieldValue(p, Questions[i].key).Some? &&
            ParseInt(FieldValue(p, Questions[i].key).value) == AnswerOr0(answers, Questions[i].key))
      && (qol.None? <==> FieldValue(p, "qol") == None)
      && (qol.Some? ==> ParseInt(FieldValue(p, "qol").value) == qol.value)
      && FieldValue(p, "utm_source") == Some(utm.source)
      && FieldValue(p, "utm_medium") == Some(utm.medium)
      && FieldValue(p, "utm_campaign") == Some(utm.campaign)
      && FieldValue(p, "utm_term") == Some(utm.term)
      && FieldValue(p, "utm_content") == Some(utm.content)
      && FieldValue(p, "page_url") == Some(utm.pageUrl)
  {
    var p := Payload(name, email, answers, qol, utm);
    PayloadIdentity(name, email, answers, qol, utm);
    forall i | 0 <= i < |Questions|
      ensures FieldValue(p, Questions[i].key).Some? &&
              ParseInt(FieldValue(p, Questions[i].key).value) == AnswerOr0(answers, Questions[i].key)
    {
      PayloadAnswer(name, email, answers, qol, utm, i);
      IntToStringRoundTrip(AnswerOr0(answers, Questions[i].key));
    }
    PayloadQol(name, email, answers, qol, utm);
    if qol.Some? {
      IntToStringRoundTrip(qol.value);
    }
    PayloadUtm(name, email, answers, qol, utm);
  }

  /** The answer dictionary the endpoint rebuilds from the body. */
  function DecodedAnswers(fd: FormData): Answers {
    map k | k in {"q1", "q2", "q3", "q4", "q5", "q6", "q7"} && FieldValue(fd, k).Some? :: ParseInt(FieldValue(fd, k).value)
  }

  /** The endpoint, summing the answers it receives, gets the total the form showed. */
  lemma EndpointTotal(name: string, email: string, answers: Answers, qol: Option<int>, utm: Utm)
    ensures Total(DecodedAnswers(Payload(name, email, answers, qol, utm))) == Total(answers)
  {
    var p := Payload(name, email, answers, qol, utm);
    PayloadRoundTrip(name, email, answers, qol, utm);
    forall i | 0 <= i < |Questions|
      ensures AnswerOr0(DecodedAnswers(p), Questions[i].key) == AnswerOr0(answers, Questions[i].key)
    {
      QuestionKeys(Questions[i].key);
    }
    TotalOnlyReadsQuestions(DecodedAnswers(p), answers);
  }

  /** The `total` member of a successful reply: missing, JSON `null`, or a number. */
  datatype ReplyTotal = Absent | Null | Number(n: int)

  /** The endpoint's JSON reply, or its absence. */
  datatype Response =
    | Ok(total: ReplyTotal)           // `{ ok: true, total? }`
    | Rejected(error: Option<string>) // `{ ok: false, error? }`, `null` and missing alike
    | NetworkFailure                  // no response, or a body that is not JSON

  /** `out.error || 'Submission failed.'`: never empty, so the error banner always shows. */
  function RejectionMessage(error: Option<string>): (r: string)
    ensures r != ""
    ensures error.Some? && error.value != "" ==> r == error.value
    ensures error.None? || error.value == "" ==> r == "Submission failed."
  {
    if error.Some? && error.value != "" then error.value else "Submission failed."
  }

  const NetworkErrorMessage: string := "Network error. Please try again."

  /** `out.total ?? total`: the reply's number, or the local total when it has none. */
  function RecordedTotal(reported: ReplyTotal, local: int): int {
    if reported.Number? then reported.n else local
  }

  /** `${out.total}`: how a template literal prints the reply's `total`. */
  function TotalText(reported: ReplyTotal): string {
    match reported
    case Absent => "undefined"
    case Null => "null"
    case Number(n) => IntToString(n)
  }

  /** The success message around the text printed for the total. */
  function Greeting(name: string, totalText: string): string {
    "Thanks, " + FirstWord(name) + "! Your IPSS total is " + totalText + "."
  }

  /** A greeting starts with "Thanks, " and the text before the first space of the name,
      and ends with the text printed for the total. */
  lemma GreetingShape(name: string, totalText: string)
    ensures var m := Greeting(name, totalText); var w := FirstWord(name);
      && |m| == 30 + |w| + |totalText|
      && m[..8] == "Thanks, " && m[8..8 + |w|] == w && m[8 + |w|] == '!'
      && (|w| < |name| ==> name[|w|] == ' ')
      && m[|m| - 1 - |totalText|..|m| - 1] == totalText && m[|m| - 1] == '.'
  {
  }

  /** The greeting as the component builds it: it interpolates the reply's `total` itself,
      so a reply without a number shows "undefined" or "null" in place of a total. */
  function OkMessageAsWritten(name: string, reported: ReplyTotal): string {
    Greeting(name, TotalText(reported))
  }

  /** The greeting stating the total the form records. */
  function OkMessage(name: string, shown: int): string {
    Greeting(name, IntToString(shown))
  }

  lemma OkMessageAsWrittenMissing()
    ensures OkMessageAsWritten("Jo Smith", Absent) == "Thanks, Jo! Your IPSS total is undefined."
  {
  }

  lemma OkMessageAsWrittenNull()
    ensures OkMessageAsWritten("Jo Smith", Null) == "Thanks, Jo! Your IPSS total is null."
  {
  }

  /** The greeting as written agrees with the recorded total exactly when the reply carries
      a number; with a missing or `null` total it never names the total the form records. */
  lemma OkMessageAsWrittenIff(name: string, reported: ReplyTotal, local: int)
    ensures OkMessageAsWritten(name, reported) == OkMessage(name, RecordedTotal(reported, local))
      <==> reported.Number?
  {
    if !reported.Number? {
      var pre := "Thanks, " + FirstWord(name) + "! Your IPSS total is ";
      var written := OkMessageAsWritten(name, reported);
      var fixed := OkMessage(name, local);
      assert written == pre + TotalText(reported) + ".";
      assert fixed == pre + IntToString(local) + ".";
      assert written[|pre|] == TotalText(reported)[0];
      assert TotalText(reported)[0] == 'u' || TotalText(reported)[0] == 'n';
      assert fixed[|pre|] == IntToString(local)[0];
      assert IntToString(local)[0] == '-' || IsDigit(IntToString(local)[0]);
    }
  }

  /** The greeting names its total unambiguously: equal greetings for one name mean equal totals. */
  lemma OkMessageNamesTotal(name: string, t1: int, t2: int)
    requires OkMessage(name, t1) == OkMessage(name, t2)
    ensures t1 == t2
  {
    var pre := "Thanks, " + FirstWord(name) + "! Your IPSS total is ";
    var m := OkMessage(name, t1);
    assert m == pre + IntToString(t1) + ".";
    assert OkMessage(name, t2) == pre + IntToString(t2) + ".";
    assert IntToString(t1) == m[|pre|..|m| - 1];
    assert IntToString(t2) == m[|pre|..|m| - 1];
    IntToStringInjective(t1, t2);
  }
}
