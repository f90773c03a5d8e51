/**
 * The grading engine of a practice set (components/PracticeQuiz.tsx): the answer maps and the
 * `submitted` flag the component updates, and the score, gradable count, rounded percentage,
 * feedback band and per-question marks it derives from them.
 */
module QuizGrading {
  import opened Wrappers
  import opened Text
  import opened Artifacts

  /** Short-answer questions are never graded automatically. */
  predicate IsGradable(q: Question) {
    q.qtype != ShortAnswer
  }

  /** `answers[q.id]?.toLowerCase() === q.answer?.toLowerCase()`: compared ignoring case. */
  predicate Matches(q: Question, answers: map<int, string>) {
    q.id in answers && ToLower(answers[q.id]) == ToLower(q.answer)
  }

  /** `questions.filter(q => q.type !== 'short_answer')`. */
  function GradableQuestions(qs: seq<Question>): (r: seq<Question>)
    ensures |r| <= |qs|
    ensures forall q :: q in r <==> q in qs && IsGradable(q)
  {
    if qs == [] then [] else
      (if IsGradable(qs[0]) then [qs[0]] else []) + GradableQuestions(qs[1..])
  }

  /** The filter behind `score`: gradable questions whose recorded answer matches. */
  function CorrectQuestions(qs: seq<Question>, answers: map<int, string>): (r: seq<Question>)
    ensures |r| <= |qs|
    ensures forall q :: q in r <==> q in qs && IsGradable(q) && Matches(q, answers)
  {
    if qs == [] then [] else
      (if IsGradable(qs[0]) && Matches(qs[0], answers) then [qs[0]] else []) + CorrectQuestions(qs[1..], answers)
  }

  /** The positions of a question list that hold a gradable question. */
  ghost function GradablePositions(qs: seq<Question>): set<int> {
    set i | 0 <= i < |qs| && IsGradable(qs[i])
  }

  /** The positions whose question is marked correct once the set is submitted. */
  ghost function CorrectPositions(qs: seq<Question>, answers: map<int, string>): set<int> {
    set i | 0 <= i < |qs| && IsGradable(qs[i]) && Matches(qs[i], answers)
  }

  /** `totalGradable`: the number of questions that are not short answer. */
  function TotalGradable(qs: seq<Question>): (r: nat)
    ensures r == |GradablePositions(qs)|
  {
    GradableCount(qs);
    |GradableQuestions(qs)|
  }

  /** Every correct question is a gradable one, so the correct count never exceeds the gradable count. */
  lemma {:induction false} CorrectAtMostGradable(qs: seq<Question>, answers: map<int, string>)
    ensures |CorrectQuestions(qs, answers)| <= |GradableQuestions(qs)|
  {
    if qs != [] {
      CorrectAtMostGradable(qs[1..], answers);
    }
  }

  /** `score`: zero before submission, then the number of correct gradable questions. */
  function Score(qs: seq<Question>, answers: map<int, string>, submitted: bool): (r: nat)
    ensures r <= TotalGradable(qs)
    ensures !submitted ==> r == 0
    ensures submitted ==> r == |CorrectPositions(qs, answers)|
  {
    CorrectAtMostGradable(qs, answers);
    CorrectCount(qs, answers);
    if submitted then |CorrectQuestions(qs, answers)| else 0
  }

  /**
   * `percentage`: `Math.round(score / total * 100)`, or 0 when nothing is gradable. For
   * non-negative values rounding half up is the integer division below.
   */
  function Percentage(score: nat, total: nat): (r: nat)
    ensures total == 0 ==> r == 0
    ensures total > 0 ==> 2 * total * r - total <= 200 * score < 2 * total * r + total
  {
    if total > 0 then (200 * score + total) / (2 * total) else 0
  }

  /** `x / d` is at least `k` exactly when `x` is at least `k * d`. */
  lemma DivAtLeast(x: nat, d: nat, k: nat)
    requires d > 0
    ensures x / d >= k <==> x >= k * d
  {
    var q, m := x / d, x % d;
    assert x == q * d + m && 0 <= m < d;
    if q >= k {
      assert q * d >= k * d by { MulMonotone(k, q, d); }
    } else {
      assert q + 1 <= k;
      assert (q + 1) * d <= k * d by { MulMonotone(q + 1, k, d); }
    }
  }

  lemma MulMonotone(a: nat, b: nat, d: nat)
    requires a <= b
    ensures a * d <= b * d
  {
  }

  /** The percentage of a score that does not exceed its total lies in [0, 100]. */
  lemma PercentageInRange(score: nat, total: nat)
    requires score <= total
    ensures 0 <= Percentage(score, total) <= 100
  {
    if total > 0 {
      DivAtLeast(200 * score + total, 2 * total, 101);
    }
  }

  /**
   * A perfect score shows 100%, and so does any score from 99.5% on (199 of 200 rounds up):
   * 100% exactly when `score / total >= 0.995`.
   */
  lemma PercentageFull(score: nat, total: nat)
    requires 0 < total && score <= total
    ensures Percentage(score, total) == 100 <==> 200 * score >= 199 * total
    ensures score == total ==> Percentage(score, total) == 100
  {
    PercentageInRange(score, total);
    DivAtLeast(200 * score + total, 2 * total, 100);
  }

  /** A higher score never gives a lower percentage. */
  lemma PercentageMonotone(s1: nat, s2: nat, total: nat)
    requires s1 <= s2
    ensures Percentage(s1, total) <= Percentage(s2, total)
  {
    if total > 0 {
      var p1 := Percentage(s1, total);
      DivAtLeast(200 * s2 + total, 2 * total, p1);
      MulMonotone(p1, p1, 2 * total);
    }
  }

  /** The percentage of the quiz: in [0, 100] in every state, and 0 when nothing is gradable. */
  lemma QuizPercentageInRange(qs: seq<Question>, answers: map<int, string>, submitted: bool)
    ensures var p := Percentage(Score(qs, answers, submitted), TotalGradable(qs));
      0 <= p <= 100 && (TotalGradable(qs) == 0 ==> p == 0)
  {
    PercentageInRange(Score(qs, answers, submitted), TotalGradable(qs));
  }

  /** The feedback tone of the score banner. */
  datatype Band = High | Mid | Low

  /** `percentage >= 90 ? … : percentage >= 70 ? … : …`. */
  function FeedbackBand(percentage: int): (b: Band)
    ensures b == High <==> percentage >= 90
    ensures b == Low <==> percentage < 70
  {
    if percentage >= 90 then High else if percentage >= 70 then Mid else Low
  }

  /**
   * The bands in terms of the raw ratio: high from 89.5% of the gradable questions on, low
   * below 69.5%.
   */
  lemma BandFromRatio(score: nat, total: nat)
    requires 0 < total
    ensures FeedbackBand(Percentage(score, total)) == High <==> 200 * score >= 179 * total
    ensures FeedbackBand(Percentage(score, total)) == Low <==> 200 * score < 139 * total
  {
    DivAtLeast(200 * score + total, 2 * total, 90);
    DivAtLeast(200 * score + total, 2 * total, 70);
  }

  /** `isCorrect` of a question card (line 107): the same predicate as the one `score` counts. */
  predicate IsCorrect(q: Question, answers: map<int, string>, submitted: bool)
    ensures IsCorrect(q, answers, submitted) ==> submitted && q.qtype != ShortAnswer && q.id in answers
  {
    submitted && IsGradable(q) && Matches(q, answers)
  }

  /** `isWrong` (line 108): it needs a truthy answer, so an empty or missing one is never wrong. */
  predicate IsWrong(q: Question, answers: map<int, string>, submitted: bool)
    ensures IsWrong(q, answers, submitted) ==>
      submitted && q.qtype != ShortAnswer && q.id in answers && answers[q.id] != ""
      && ToLower(answers[q.id]) != ToLower(q.answer)
  {
    submitted && IsGradable(q) && q.id in answers && answers[q.id] != "" && !IsCorrect(q, answers, submitted)
  }

  /** `score` is the number of question cards marked correct (line 107), before and after submission. */
  lemma ScoreCountsCorrectMarks(qs: seq<Question>, answers: map<int, string>, submitted: bool)
    ensures Score(qs, answers, submitted) == |set i | 0 <= i < |qs| && IsCorrect(qs[i], answers, submitted)|
  {
    if submitted {
      assert (set i | 0 <= i < |qs| && IsCorrect(qs[i], answers, submitted)) == CorrectPositions(qs, answers);
    } else {
      assert (set i | 0 <= i < |qs| && IsCorrect(qs[i], answers, submitted)) == {};
    }
  }

  /**
   * After submission a gradable question is marked correct, wrong, or neither; neither happens
   * exactly when it was left unanswered or answered with the empty string.
   */
  lemma QuestionMarks(q: Question, answers: map<int, string>, submitted: bool)
    ensures !(IsCorrect(q, answers, submitted) && IsWrong(q, answers, submitted))
    ensures !submitted || !IsGradable(q) ==> !IsCorrect(q, answers, submitted) && !IsWrong(q, answers, submitted)
    ensures submitted && IsGradable(q) && !IsCorrect(q, answers, submitted) ==>
      (IsWrong(q, answers, submitted) <==> q.id in answers && answers[q.id] != "")
  {
  }

  /** Filtering distributes over concatenation. */
  lemma {:induction false} CorrectQuestionsAppend(a: seq<Question>, b: seq<Question>, answers: map<int, string>)
    ensures CorrectQuestions(a + b, answers) == CorrectQuestions(a, answers) + CorrectQuestions(b, answers)
  {
    if a == [] {
      assert a + b == b;
    } else {
      var c := a + b;
      assert c[0] == a[0] && c[1..] == a[1..] + b;
      CorrectQuestionsAppend(a[1..], b, answers);
      var h := if IsGradable(a[0]) && Matches(a[0], answers) then [a[0]] else [];
      assert CorrectQuestions(c, answers) == h + CorrectQuestions(a[1..] + b, answers);
      assert CorrectQuestions(a, answers) == h + CorrectQuestions(a[1..], answers);
    }
  }

  lemma {:induction false} GradableQuestionsAppend(a: seq<Question>, b: seq<Question>)
    ensures GradableQuestions(a + b) == GradableQuestions(a) + GradableQuestions(b)
  {
    if a == [] {
      assert a + b == b;
    } else {
      var c := a + b;
      assert c[0] == a[0] && c[1..] == a[1..] + b;
      GradableQuestionsAppend(a[1..], b);
      var h := if IsGradable(a[0]) then [a[0]] else [];
      assert GradableQuestions(c) == h + GradableQuestions(a[1..] + b);
      assert GradableQuestions(a) == h + GradableQuestions(a[1..]);
    }
  }

  /** The gradable filter keeps every copy of a gradable question and no other. */
  lemma {:induction false} GradableMultiplicity(qs: seq<Question>)
    ensures forall q :: multiset(GradableQuestions(qs))[q] == if IsGradable(q) then multiset(qs)[q] else 0
  {
    if qs != [] {
      assert qs == [qs[0]] + qs[1..];
      GradableMultiplicity(qs[1..]);
    }
  }

  /** The correct filter keeps every copy of a correctly answered gradable question and no other. */
  lemma {:induction false} CorrectMultiplicity(qs: seq<Question>, answers: map<int, string>)
    ensures forall q ::
      multiset(CorrectQuestions(qs, answers))[q] == (if IsGradable(q) && Matches(q, answers) then multiset(qs)[q] else 0)
  {
    if qs != [] {
      assert qs == [qs[0]] + qs[1..];
      CorrectMultiplicity(qs[1..], answers);
    }
  }

  /** Appending a question adds its position exactly when it is gradable. */
  lemma GradablePositionsSnoc(init: seq<Question>, last: Question)
    ensures GradablePositions(init + [last]) ==
      GradablePositions(init) + (if IsGradable(last) then {|init|} else {})
    ensures |init| !in GradablePositions(init)
  {
    var qs := init + [last];
    assert forall i :: 0 <= i < |init| ==> qs[i] == init[i];
  }

  /** The gradable filter is as long as the number of gradable positions. */
  lemma {:induction false} GradableCount(qs: seq<Question>)
    ensures |GradableQuestions(qs)| == |GradablePositions(qs)|
    decreases |qs|
  {
    if qs == [] {
      assert GradablePositions(qs) == {};
    } else {
      var init, last := qs[..|qs| - 1], qs[|qs| - 1];
      assert qs == init + [last];
      GradableQuestionsAppend(init, [last]);
      GradableCount(init);
      assert [last][1..] == [];
      GradablePositionsSnoc(init, last);
    }
  }

  /** The correct filter is as long as the number of correct positions. */
  lemma {:induction false} CorrectCount(qs: seq<Question>, answers: map<int, string>)
    ensures |CorrectQuestions(qs, answers)| == |CorrectPositions(qs, answers)|
    decreases |qs|
  {
    if qs == [] {
      assert CorrectPositions(qs, answers) == {};
    } else {
      var init, last := qs[..|qs| - 1], qs[|qs| - 1];
      assert qs == init + [last];
      CorrectQuestionsAppend(init, [last], answers);
      CorrectCount(init, answers);
      assert [last][1..] == [];
      var extra: set<int> := if IsGradable(last) && Matches(last, answers) then {|init|} else {};
      assert CorrectPositions(qs, answers) == CorrectPositions(init, answers) + extra;
      assert |init| !in CorrectPositions(init, answers);
    }
  }

  /** Two lists with the same elements have correct filters of the same length. */
  lemma CorrectLengthFromMultiset(a: seq<Question>, b: seq<Question>, answers: map<int, string>)
    requires multiset(a) == multiset(b)
    ensures |CorrectQuestions(a, answers)| == |CorrectQuestions(b, answers)|
  {
    CorrectMultiplicity(a, answers);
    CorrectMultiplicity(b, answers);
    var ca, cb := CorrectQuestions(a, answers), CorrectQuestions(b, answers);
    assert forall q :: multiset(ca)[q] == multiset(cb)[q];
    assert multiset(ca) == multiset(cb);
    assert |multiset(ca)| == |ca| && |multiset(cb)| == |cb|;
  }

  /** Two lists with the same elements have gradable filters of the same length. */
  lemma GradableLengthFromMultiset(a: seq<Question>, b: seq<Question>)
    requires multiset(a) == multiset(b)
    ensures |GradableQuestions(a)| == |GradableQuestions(b)|
  {
    GradableMultiplicity(a);
    GradableMultiplicity(b);
    var ga, gb := GradableQuestions(a), GradableQuestions(b);
    assert forall q :: multiset(ga)[q] == multiset(gb)[q];
    assert multiset(ga) == multiset(gb);
    assert |multiset(ga)| == |ga| && |multiset(gb)| == |gb|;
  }

  /** Score and gradable count depend only on which questions there are, not on their order. */
  lemma ScorePermutationInvariant(a: seq<Question>, b: seq<Question>, answers: map<int, string>, submitted: bool)
    requires multiset(a) == multiset(b)
    ensures Score(a, answers, submitted) == Score(b, answers, submitted)
    ensures TotalGradable(a) == TotalGradable(b)
  {
    CorrectLengthFromMultiset(a, b, answers);
    GradableLengthFromMultiset(a, b);
  }

  /** A short-answer question adds nothing to the score or to the gradable count, wherever it stands. */
  lemma ShortAnswerNeverCounts(a: seq<Question>, sq: Question, b: seq<Question>, answers: map<int, string>, submitted: bool)
    requires sq.qtype == ShortAnswer
    ensures Score(a + [sq] + b, answers, submitted) == Score(a + b, answers, submitted)
    ensures TotalGradable(a + [sq] + b) == TotalGradable(a + b)
  {
    CorrectQuestionsAppend(a, [sq], answers);
    CorrectQuestionsAppend(a + [sq], b, answers);
    CorrectQuestionsAppend(a, b, answers);
    GradableQuestionsAppend(a, [sq]);
    GradableQuestionsAppend(a + [sq], b);
    GradableQuestionsAppend(a, b);
    assert CorrectQuestions([sq], answers) == [] && GradableQuestions([sq]) == [];
  }

  /**
   * The score depends only on the recorded answers of gradable questions, and on them only up
   * to case; the short-answer text is not even an input.
   */
  lemma {:induction false} ScoreIgnoresCase(qs: seq<Question>, a1: map<int, string>, a2: map<int, string>, submitted: bool)
    requires forall q :: q in qs && IsGradable(q) ==>
      (q.id in a1 <==> q.id in a2) && (q.id in a1 ==> ToLower(a1[q.id]) == ToLower(a2[q.id]))
    ensures CorrectQuestions(qs, a1) == CorrectQuestions(qs, a2)
    ensures Score(qs, a1, submitted) == Score(qs, a2, submitted)
  {
    if qs != [] {
      assert qs[0] in qs;
      ScoreIgnoresCase(qs[1..], a1, a2, submitted);
    }
  }

  /** The interactive state of the component. */
  datatype QuizState = QuizState(answers: map<int, string>, submitted: bool, shortAnswerText: map<int, string>)

  function InitialQuiz(): QuizState {
    QuizState(map[], false, map[])
  }

  /** `handleAnswer`: nothing once submitted; otherwise only `answers[qId]` changes. */
  function HandleAnswer(st: QuizState, qId: int, answer: string): (r: QuizState)
    ensures st.submitted ==> r == st
    ensures !st.submitted ==> r.answers == st.answers[qId := answer] && r.(answers := st.answers) == st
  {
    if st.submitted then st else st.(answers := st.answers[qId := answer])
  }

  /** A multiple-choice option records its leading label character: `opt.charAt(0)`. */
  function OptionAnswer(option: string): (a: string)
    ensures option != [] ==> a == [option[0]]
    ensures option == [] ==> a == ""
  {
    FirstChar(option)
  }

  /** A true/false button records the literal "True" or "False". */
  function TrueFalseAnswer(choice: bool): (a: string)
    ensures a in {"True", "False"}
    ensures (a == "True") == choice
  {
    if choice then "True" else "False"
  }

  /** The short-answer textarea's `onChange`; the textarea is disabled once submitted. */
  function EditShortAnswer(st: QuizState, qId: int, text: string): (r: QuizState)
    ensures st.submitted ==> r == st
    ensures !st.submitted ==> r.shortAnswerText == st.shortAnswerText[qId := text] && r.(shortAnswerText := st.shortAnswerText) == st
  {
    if st.submitted then st else st.(shortAnswerText := st.shortAnswerText[qId := text])
  }

  /** "Submit Answers": not rendered once submitted, disabled while no answer is recorded. */
  function SubmitAnswers(st: QuizState): (r: QuizState)
    ensures r.submitted <==> st.submitted || |st.answers| > 0
    ensures r.answers == st.answers && r.shortAnswerText == st.shortAnswerText
  {
    if st.submitted || |st.answers| == 0 then st else st.(submitted := true)
  }

  /** What the user can do to the quiz. */
  datatype QuizAction =
    | Answer(qId: int, answer: string)
    | WriteShortAnswer(qId: int, text: string)
    | SubmitClick

  function ApplyAction(st: QuizState, a: QuizAction): QuizState {
    match a
    case Answer(qId, answer) => HandleAnswer(st, qId, answer)
    case WriteShortAnswer(qId, text) => EditShortAnswer(st, qId, text)
    case SubmitClick => SubmitAnswers(st)
  }

  function RunQuiz(st: QuizState, acts: seq<QuizAction>): QuizState
    decreases |acts|
  {
    if acts == [] then st else RunQuiz(ApplyAction(st, acts[0]), acts[1..])
  }

  /** Submission is one-way: afterwards no action changes anything, so the answers are read-only. */
  lemma {:induction false} SubmittedIsFinal(st: QuizState, acts: seq<QuizAction>)
    requires st.submitted
    ensures RunQuiz(st, acts) == st
    decreases |acts|
  {
    if acts != [] {
      SubmittedIsFinal(ApplyAction(st, acts[0]), acts[1..]);
    }
  }

  /** Answers are never withdrawn: the set of answered questions only grows. */
  lemma {:induction false} AnsweredOnlyGrows(st: QuizState, acts: seq<QuizAction>)
    ensures st.answers.Keys <= RunQuiz(st, acts).answers.Keys
    ensures st.submitted ==> RunQuiz(st, acts).submitted
    decreases |acts|
  {
    if acts != [] {
      AnsweredOnlyGrows(ApplyAction(st, acts[0]), acts[1..]);
    }
  }

  /** The highlight of one answer button. */
  datatype Highlight = MarkedCorrect | MarkedWrong | MarkedSelected | Unmarked

  /** An answer button's highlight as written (lines 139-141, 161-163): `q.answer === optLetter` ignores no case. */
  function OptionMarkAsWritten(q: Question, answers: map<int, string>, submitted: bool, optAnswer: string): (h: Highlight)
    ensures h == MarkedCorrect <==> submitted && q.answer == optAnswer
    ensures h == MarkedWrong <==> submitted && q.id in answers && answers[q.id] == optAnswer && q.answer != optAnswer
    ensures h == MarkedSelected <==> !submitted && q.id in answers && answers[q.id] == optAnswer
  {
    var isSelected := q.id in answers && answers[q.id] == optAnswer;
    var isCorrectOpt := submitted && q.answer == optAnswer;
    var isWrongOpt := submitted && isSelected && !isCorrectOpt;
    if isCorrectOpt then MarkedCorrect
    else if isWrongOpt then MarkedWrong
    else if isSelected then MarkedSelected
    else Unmarked
  }

  /** An answer button's highlight, comparing with the key the way `isCorrect` does. */
  function OptionMark(q: Question, answers: map<int, string>, submitted: bool, optAnswer: string): (h: Highlight)
    ensures h == MarkedCorrect <==> submitted && ToLower(q.answer) == ToLower(optAnswer)
    ensures h == MarkedWrong <==>
      submitted && q.id in answers && answers[q.id] == optAnswer && ToLower(q.answer) != ToLower(optAnswer)
    ensures h == MarkedSelected <==> !submitted && q.id in answers && answers[q.id] == optAnswer
  {
    var isSelected := q.id in answers && answers[q.id] == optAnswer;
    var isCorrectOpt := submitted && ToLower(q.answer) == ToLower(optAnswer);
    var isWrongOpt := submitted && isSelected && !isCorrectOpt;
    if isCorrectOpt then MarkedCorrect
    else if isWrongOpt then MarkedWrong
    else if isSelected then MarkedSelected
    else Unmarked
  }

  /**
   * With the case-insensitive comparison, the selected button agrees with the question's mark:
   * green exactly when the question is correct, red exactly when it is wrong.
   */
  lemma OptionMarkAgreesWithQuestion(q: Question, answers: map<int, string>, optAnswer: string)
    requires IsGradable(q) && q.id in answers && answers[q.id] == optAnswer && optAnswer != ""
    ensures OptionMark(q, answers, true, optAnswer) == MarkedCorrect <==> IsCorrect(q, answers, true)
    ensures OptionMark(q, answers, true, optAnswer) == MarkedWrong <==> IsWrong(q, answers, true)
  {
  }

  /**
   * As written, a lower-case key disagrees with the marks: with key "b" and option "B) Paris"
   * chosen, the question counts as correct while its chosen button is shown as wrong.
   */
  lemma OptionMarkAsWrittenDisagrees()
    ensures var q := Question(1, MultipleChoice, "remember", "Capital of France?",
                              Some(["A) Rome", "B) Paris"]), "b", "", None);
      var answers := HandleAnswer(InitialQuiz(), 1, OptionAnswer("B) Paris")).answers;
      && IsCorrect(q, answers, true)
      && OptionMarkAsWritten(q, answers, true, "B") == MarkedWrong
      && OptionMark(q, answers, true, "B") == MarkedCorrect
  {
    assert ToLower("B") == "b" && ToLower("b") == "b";
  }

  /** Grading ignores case: "paris" and "Paris" are both right for the key "Paris". */
  lemma GradingIgnoresCaseExample(q: Question)
    requires q.qtype == MultipleChoice && q.answer == "Paris"
    ensures IsCorrect(q, map[q.id := "paris"], true) && IsCorrect(q, map[q.id := "Paris"], true)
  {
    assert ToLower("paris") == "paris" && ToLower("Paris") == "paris";
  }

  /** Three multiple-choice questions, two answered correctly and one blank: 2 of 3, 67%. */
  lemma TwoOfThreeExample()
    ensures var qs := [
        Question(1, MultipleChoice, "remember", "Q1", Some(["A) x", "B) y"]), "A", "", None),
        Question(2, MultipleChoice, "remember", "Q2", Some(["A) x", "B) y"]), "B", "", None),
        Question(3, MultipleChoice, "remember", "Q3", Some(["A) x", "B) y"]), "A", "", None)];
      var answers := map[1 := "A", 2 := "B"];
      && Score(qs, answers, true) == 2 && TotalGradable(qs) == 3
      && Percentage(Score(qs, answers, true), TotalGradable(qs)) == 67
  {
    var qs := [
        Question(1, MultipleChoice, "remember", "Q1", Some(["A) x", "B) y"]), "A", "", None),
        Question(2, MultipleChoice, "remember", "Q2", Some(["A) x", "B) y"]), "B", "", None),
        Question(3, MultipleChoice, "remember", "Q3", Some(["A) x", "B) y"]), "A", "", None)];
    var answers := map[1 := "A", 2 := "B"];
    assert ToLower("A") == "a" && ToLower("B") == "b";
    assert qs[1..][1..][1..] == [];
    assert CorrectQuestions(qs, answers) == [qs[0], qs[1]];
  }

  /** The component: its `useState` fields over the set's questions. */
  class PracticeQuiz {
    const questions: seq<Question>
    var answers: map<int, string>
    var submitted: bool
    var shortAnswerText: map<int, string>

    ghost function State(): QuizState
      reads this
    {
      QuizState(answers, submitted, shortAnswerText)
    }

    constructor (data: PracticeData)
      ensures questions == data.questions && State() == InitialQuiz()
    {
      questions := data.questions;
      answers, submitted, shortAnswerText := map[], false, map[];
    }

    method Answer(qId: int, answer: string)
      modifies this
      ensures State() == HandleAnswer(old(State()), qId, answer)
    {
      if submitted {
        return;
      }
      answers := answers[qId := answer];
    }

    /** A click on option `option` of a multiple-choice question. */
    method ClickOption(q: Question, option: string)
      requires q in questions && q.qtype == MultipleChoice && q.options.Some? && option in q.options.value
      modifies this
      ensures State() == HandleAnswer(old(State()), q.id, OptionAnswer(option))
    {
      Answer(q.id, if option == "" then "" else [option[0]]);
    }

    /** A click on "True" or "False" of a true/false question. */
    method ClickTrueFalse(q: Question, choice: bool)
      requires q in questions && q.qtype == TrueFalse
      modifies this
      ensures State() == HandleAnswer(old(State()), q.id, TrueFalseAnswer(choice))
    {
      Answer(q.id, if choice then "True" else "False");
    }

    method WriteShortAnswer(qId: int, text: string)
      modifies this
      ensures State() == EditShortAnswer(old(State()), qId, text)
    {
      if !submitted {
        shortAnswerText := shortAnswerText[qId := text];
      }
    }

    method Submit()
      modifies this
      ensures State() == SubmitAnswers(old(State()))
    {
      if !submitted && |answers| != 0 {
        submitted := true;
      }
    }

    /** The banner's `score`, `totalGradable` and `percentage`. */
    function CurrentScore(): (r: nat)
      reads this
      ensures r <= TotalGradable(questions)
    {
      Score(questions, answers, submitted)
    }

    function CurrentPercentage(): (r: nat)
      reads this
      ensures r <= 100
    {
      PercentageInRange(CurrentScore(), TotalGradable(questions));
      Percentage(CurrentScore(), TotalGradable(questions))
    }
  }
}
