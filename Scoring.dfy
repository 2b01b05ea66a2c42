/** The IPSS questionnaire and its running score: the fixed question list, the
    per-question answer dictionary and the total the form shows live. */
module Scoring {

  datatype Question = Question(key: string, text: string)

  /** The seven questions, in the order the form shows, sums and submits them. */
  const Questions: seq<Question> := [
    Question("q1", "Incomplete emptying"),
    Question("q2", "Frequency"),
    Question("q3", "Intermittency"),
    Question("q4", "Urgency"),
    Question("q5", "Weak stream"),
    Question("q6", "Straining"),
    Question("q7", "Nocturia (times/night)")
  ]

  /** The answer dictionary: question key to the chosen value. Keys may be missing. */
  type Answers = map<string, int>

  /** The values a question card offers. */
  predicate InScale(v: int) {
    0 <= v <= 5
  }

  predicate IsQuestionKey(k: string) {
    exists i | 0 <= i < |Questions| :: Questions[i].key == k
  }

  /** `answers[key] ?? 0`. */
  function AnswerOr0(answers: Answers, key: string): int {
    if key in answers then answers[key] else 0
  }

  /** The left fold `qs.reduce((acc, q) => acc + (answers[q.key] ?? 0), acc)`. */
  function Accumulate(qs: seq<Question>, acc: int, answers: Answers): int
    decreases |qs|
  {
    if qs == [] then acc else Accumulate(qs[1..], acc + AnswerOr0(answers, qs[0].key), answers)
  }

  /** The live total the form shows, a running sum before every question is answered. */
  function Total(answers: Answers): int {
    Accumulate(Questions, 0, answers)
  }

  /** Every question has an answer (`typeof answers[q.key] === 'number'` for all seven). */
  predicate AllAnswered(answers: Answers): (r: bool)
    ensures r <==> "q1" in answers && "q2" in answers && "q3" in answers && "q4" in answers
                   && "q5" in answers && "q6" in answers && "q7" in answers
  {
    assert Questions[0].key == "q1" && Questions[1].key == "q2" && Questions[2].key == "q3";
    assert Questions[3].key == "q4" && Questions[4].key == "q5" && Questions[5].key == "q6";
    assert Questions[6].key == "q7";
    forall i | 0 <= i < |Questions| :: Questions[i].key in answers
  }

  /** Every answer present for a question is one a question card offers. */
  predicate AnswersInScale(answers: Answers) {
    forall i | 0 <= i < |Questions| :: Questions[i].key in answers ==> InScale(answers[Questions[i].key])
  }

  /** Reference definition of the total: the seven contributions written out. */
  function SevenSum(answers: Answers): int {
    AnswerOr0(answers, "q1") + AnswerOr0(answers, "q2") + AnswerOr0(answers, "q3")
    + AnswerOr0(answers, "q4") + AnswerOr0(answers, "q5") + AnswerOr0(answers, "q6")
    + AnswerOr0(answers, "q7")
  }

  lemma {:induction false} AccumulateShift(qs: seq<Question>, acc: int, answers: Answers)
    ensures Accumulate(qs, acc, answers) == acc + Accumulate(qs, 0, answers)
    decreases |qs|
  {
    if qs != [] {
      var v := AnswerOr0(answers, qs[0].key);
      AccumulateShift(qs[1..], acc + v, answers);
      AccumulateShift(qs[1..], v, answers);
    }
  }

  /** The contributions of the questions in `qs`, added up from the right. */
  function SumOver(qs: seq<Question>, answers: Answers): int {
    if qs == [] then 0 else AnswerOr0(answers, qs[0].key) + SumOver(qs[1..], answers)
  }

  /** The `reduce` fold from 0 over any question list is the sum of its contributions. */
  lemma {:induction false} AccumulateIsSum(qs: seq<Question>, answers: Answers)
    ensures Accumulate(qs, 0, answers) == SumOver(qs, answers)
    decreases |qs|
  {
    if qs != [] {
      AccumulateShift(qs[1..], AnswerOr0(answers, qs[0].key), answers);
      AccumulateIsSum(qs[1..], answers);
    }
  }

  /** The fold over the question list is the sum of the seven contributions, a missing
      answer contributing 0. */
  lemma TotalIsSevenSum(answers: Answers)
    ensures Total(answers) == SevenSum(answers)
  {
    AccumulateIsSum(Questions, answers);
  }

  /** Two answer dictionaries that agree on the seven questions have the same total:
      no other key affects it. */
  lemma TotalOnlyReadsQuestions(a: Answers, b: Answers)
    requires forall i | 0 <= i < |Questions| :: AnswerOr0(a, Questions[i].key) == AnswerOr0(b, Questions[i].key)
    ensures Total(a) == Total(b)
  {
    TotalIsSevenSum(a);
    TotalIsSevenSum(b);
    assert AnswerOr0(a, Questions[0].key) == AnswerOr0(b, Questions[0].key);
    assert AnswerOr0(a, Questions[1].key) == AnswerOr0(b, Questions[1].key);
    assert AnswerOr0(a, Questions[2].key) == AnswerOr0(b, Questions[2].key);
    assert AnswerOr0(a, Questions[3].key) == AnswerOr0(b, Questions[3].key);
    assert AnswerOr0(a, Questions[4].key) == AnswerOr0(b, Questions[4].key);
    assert AnswerOr0(a, Questions[5].key) == AnswerOr0(b, Questions[5].key);
    assert AnswerOr0(a, Questions[6].key) == AnswerOr0(b, Questions[6].key);
  }

  lemma QuestionAt(answers: Answers, i: int)
    requires AnswersInScale(answers) && 0 <= i < |Questions|
    ensures 0 <= AnswerOr0(answers, Questions[i].key) <= 5
  {
  }

  /** Answers within the scale keep the live total within 0..35, answered or not. */
  lemma TotalBounds(answers: Answers)
    requires AnswersInScale(answers)
    ensures 0 <= Total(answers) <= 35
  {
    TotalIsSevenSum(answers);
    assert Questions[0].key == "q1" && Questions[1].key == "q2" && Questions[2].key == "q3";
    assert Questions[3].key == "q4" && Questions[4].key == "q5" && Questions[5].key == "q6";
    assert Questions[6].key == "q7";
    QuestionAt(answers, 0);
    QuestionAt(answers, 1);
    QuestionAt(answers, 2);
    QuestionAt(answers, 3);
    QuestionAt(answers, 4);
    QuestionAt(answers, 5);
    QuestionAt(answers, 6);
  }

  /** Once every question is answered the total is the plain sum of the seven answers. */
  lemma CompleteTotal(answers: Answers)
    requires AllAnswered(answers)
    ensures Total(answers) == answers["q1"] + answers["q2"] + answers["q3"] + answers["q4"]
                              + answers["q5"] + answers["q6"] + answers["q7"]
  {
  }

  /** After `answers[k := v]`, key `k` reads `v` and every other key reads as before. */
  lemma AnswerOr0Update(answers: Answers, k: string, v: int, q: string)
    ensures AnswerOr0(answers[k := v], q) == if q == k then v else AnswerOr0(answers, q)
  {
  }

  lemma QuestionKeys(k: string)
    ensures IsQuestionKey(k) <==> k in {"q1", "q2", "q3", "q4", "q5", "q6", "q7"}
  {
    if k == "q1" { assert Questions[0].key == k; }
    if k == "q2" { assert Questions[1].key == k; }
    if k == "q3" { assert Questions[2].key == k; }
    if k == "q4" { assert Questions[3].key == k; }
    if k == "q5" { assert Questions[4].key == k; }
    if k == "q6" { assert Questions[5].key == k; }
    if k == "q7" { assert Questions[6].key == k; }
  }

  /** Recording `v` for `k` replaces that question's contribution by `v`; recording
      under a key that is not a question leaves the total alone. */
  lemma TotalAfterAnswer(answers: Answers, k: string, v: int)
    ensures IsQuestionKey(k) ==> Total(answers[k := v]) == Total(answers) - AnswerOr0(answers, k) + v
    ensures !IsQuestionKey(k) ==> Total(answers[k := v]) == Total(answers)
  {
    var b := answers[k := v];
    TotalIsSevenSum(answers);
    TotalIsSevenSum(b);
    QuestionKeys(k);
    AnswerOr0Update(answers, k, v, "q1");
    AnswerOr0Update(answers, k, v, "q2");
    AnswerOr0Update(answers, k, v, "q3");
    AnswerOr0Update(answers, k, v, "q4");
    AnswerOr0Update(answers, k, v, "q5");
    AnswerOr0Update(answers, k, v, "q6");
    AnswerOr0Update(answers, k, v, "q7");
  }

  /** Answering a question twice keeps only the last value: contributions do not accumulate. */
  lemma LastAnswerWins(answers: Answers, k: string, first: int, second: int)
    ensures answers[k := first][k := second] == answers[k := second]
    ensures IsQuestionKey(k) ==> Total(answers[k := first][k := second]) == Total(answers) - AnswerOr0(answers, k) + second
  {
  }
}
