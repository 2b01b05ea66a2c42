/** The form's submit gate: the name and email checks and `canSubmit`. */
module Validation {
  import opened Text
  import opened Scoring

  /** `validName`: at least two characters once surrounding whitespace is trimmed. */
  predicate ValidName(s: string) {
    |Trim(s)| >= 2
  }

  /** Two non-whitespace characters of `s`, at `i` before `j`. */
  predicate TwoVisible(s: string) {
    exists i, j :: 0 <= i < j < |s| && !IsWhitespace(s[i]) && !IsWhitespace(s[j])
  }

  lemma ValidNameVisible(s: string)
    requires ValidName(s)
    ensures TwoVisible(s)
  {
    var t1 := TrimStart(s);
    var t := TrimEnd(t1);
    TrimStartSpec(s);
    TrimEndSpec(t1);
    var p := |s| - |t1|;
    assert t[0] == t1[0] == s[p];
    assert t[|t| - 1] == t1[|t| - 1] == s[p + |t| - 1];
    assert 0 <= p < p + |t| - 1 < |s|;
  }

  lemma VisibleValidName(s: string, i: int, j: int)
    requires 0 <= i < j < |s| && !IsWhitespace(s[i]) && !IsWhitespace(s[j])
    ensures ValidName(s)
  {
    var t1 := TrimStart(s);
    var t := TrimEnd(t1);
    TrimStartSpec(s);
    TrimEndSpec(t1);
    var p := |s| - |t1|;
    assert p <= i;
    assert t1[j - p] == s[j];
    assert j - p < |t|;
  }

  /** A name is valid exactly when it holds two non-whitespace characters, wherever they are. */
  lemma ValidNameIff(s: string)
    ensures ValidName(s) <==> exists i, j :: 0 <= i < j < |s| && !IsWhitespace(s[i]) && !IsWhitespace(s[j])
  {
    if ValidName(s) {
      ValidNameVisible(s);
    }
    if TwoVisible(s) {
      var i, j :| 0 <= i < j < |s| && !IsWhitespace(s[i]) && !IsWhitespace(s[j]);
      VisibleValidName(s, i, j);
    }
  }

  /** The class `[^\s@]`. */
  predicate Plain(c: char) {
    !IsWhitespace(c) && c != '@'
  }

  /** `[^\s@]+` matched against the whole of `t`. */
  predicate PlainRun(t: string) {
    |t| > 0 && forall k | 0 <= k < |t| :: Plain(t[k])
  }

  /** `validEmail`: the whole of `s` matches `^[^\s@]+@[^\s@]+\.[^\s@]+$`, that is, it
      splits at an `@` (index `a`) and a later `.` (index `d`) into three non-empty runs
      of characters that are neither whitespace nor `@`. */
  predicate ValidEmail(s: string) {
    exists a, d | 0 < a < |s| && a + 1 < d < |s| - 1 ::
      s[a] == '@' && s[d] == '.' && PlainRun(s[..a]) && PlainRun(s[a + 1..d]) && PlainRun(s[d + 1..])
  }

  /** The character-level reading of the email pattern: no whitespace, exactly one `@`,
      something before it, and a `.` after it that is neither the first nor the last
      character of the part after the `@`. */
  ghost predicate EmailShape(s: string) {
    && (forall i | 0 <= i < |s| :: !IsWhitespace(s[i]))
    && exists a | 0 < a < |s| ::
         && s[a] == '@'
         && (forall i | 0 <= i < |s| && s[i] == '@' :: i == a)
         && (exists d | a + 1 < d < |s| - 1 :: s[d] == '.')
  }

  /** A run of characters that are neither whitespace nor `@` cut out of `s` between `lo` and `hi`. */
  lemma PlainSlice(s: string, lo: int, hi: int)
    requires 0 <= lo < hi <= |s|
    requires forall i | lo <= i < hi :: Plain(s[i])
    ensures PlainRun(s[lo..hi])
  {
    forall k | 0 <= k < hi - lo ensures Plain(s[lo..hi][k]) {
      assert s[lo..hi][k] == s[lo + k];
    }
  }

  lemma ValidEmailHasShape(s: string)
    requires ValidEmail(s)
    ensures EmailShape(s)
  {
    var a, d :| 0 < a < |s| && a + 1 < d < |s| - 1 && s[a] == '@' && s[d] == '.'
      && PlainRun(s[..a]) && PlainRun(s[a + 1..d]) && PlainRun(s[d + 1..]);
    forall i | 0 <= i < |s| ensures !IsWhitespace(s[i]) && (s[i] == '@' ==> i == a) {
      if i < a {
        assert s[..a][i] == s[i];
      } else if a < i < d {
        assert s[a + 1..d][i - a - 1] == s[i];
      } else if d < i {
        assert s[d + 1..][i - d - 1] == s[i];
      }
    }
    assert a + 1 < d < |s| - 1 && s[d] == '.';
  }

  lemma ShapeIsValidEmail(s: string)
    requires EmailShape(s)
    ensures ValidEmail(s)
  {
    var a :| 0 < a < |s| && s[a] == '@' && (forall i | 0 <= i < |s| && s[i] == '@' :: i == a)
      && (exists d | a + 1 < d < |s| - 1 :: s[d] == '.');
    var d :| a + 1 < d < |s| - 1 && s[d] == '.';
    assert forall i | 0 <= i < |s| && i != a :: Plain(s[i]);
    PlainSlice(s, 0, a);
    PlainSlice(s, a + 1, d);
    PlainSlice(s, d + 1, |s|);
    assert s[..a] == s[0..a];
  }

  lemma ValidEmailIff(s: string)
    ensures ValidEmail(s) <==> EmailShape(s)
  {
    if ValidEmail(s) {
      ValidEmailHasShape(s);
    }
    if EmailShape(s) {
      ShapeIsValidEmail(s);
    }
  }

  /** `canSubmit`: name valid, email valid, consent given, all seven answered, and no
      submission in flight. */
  predicate Submittable(name: string, email: string, consent: bool, answers: Answers, loading: bool) {
    ValidName(name) && ValidEmail(email) && consent && AllAnswered(answers) && !loading
  }

  /** The submit gate in the characters of the fields: it opens exactly when the name has two
      non-whitespace characters, the email has the shape above, consent is given, every
      question key is present and nothing is in flight; any one failing closes it. */
  lemma SubmittableIff(name: string, email: string, consent: bool, answers: Answers, loading: bool)
    ensures Submittable(name, email, consent, answers, loading) <==>
      && (exists i, j :: 0 <= i < j < |name| && !IsWhitespace(name[i]) && !IsWhitespace(name[j]))
      && EmailShape(email)
      && consent
      && (forall i | 0 <= i < |Questions| :: Questions[i].key in answers)
      && !loading
  {
    ValidNameIff(name);
    ValidEmailIff(email);
  }

  /** A question left unanswered keeps the gate closed, whatever else holds. */
  lemma UnansweredBlocks(name: string, email: string, consent: bool, answers: Answers, loading: bool, k: string)
    requires IsQuestionKey(k) && k !in answers
    ensures !Submittable(name, email, consent, answers, loading)
  {
  }

  lemma ExampleEmailValid()
    ensures ValidEmail("jo@example.com")
  {
    var e := "jo@example.com";
    assert e[..2] == "jo" && e[3..10] == "example" && e[11..] == "com";
    assert PlainRun("jo");
    assert PlainRun("example");
    assert PlainRun("com");
    assert e[2] == '@' && e[10] == '.';
  }

  lemma ExampleNameValid()
    ensures ValidName("Jo Smith")
  {
  }

  /** The answers of the worked example below. */
  function ExampleAnswers(): (answers: Answers)
    ensures AllAnswered(answers)
  {
    map["q1" := 2, "q2" := 1, "q3" := 0, "q4" := 3, "q5" := 2, "q6" := 1, "q7" := 4]
  }

  /** The worked example of a complete assessment scores 13 ... */
  lemma ExampleTotal()
    ensures Total(ExampleAnswers()) == 13
  {
    var answers := ExampleAnswers();
    CompleteTotal(answers);
    assert answers["q1"] == 2 && answers["q2"] == 1 && answers["q3"] == 0 && answers["q4"] == 3;
    assert answers["q5"] == 2 && answers["q6"] == 1 && answers["q7"] == 4;
  }

  /** ... and opens the submit gate. */
  lemma ExampleGateOpen()
    ensures Submittable("Jo Smith", "jo@example.com", true, ExampleAnswers(), false)
  {
    ExampleEmailValid();
    ExampleNameValid();
  }
}
