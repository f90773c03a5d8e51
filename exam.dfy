/**
 * The exam formatter (components/ExamViewer.tsx): the printable exam body, section by section,
 * and the answer-key view, switched by the `activeTab` flag.
 */
module ExamFormatter {
  import opened Wrappers
  import opened Artifacts

  /** The blank answer lines under a question: 8 for an essay, 3 for a short answer, none otherwise. */
  function BlankLines(qtype: string): (n: nat)
    ensures n == 8 <==> qtype == "essay"
    ensures n == 3 <==> qtype == "short_answer"
    ensures n == 0 <==> qtype != "essay" && qtype != "short_answer"
  {
    if qtype == "short_answer" || qtype == "essay" then (if qtype == "essay" then 8 else 3) else 0
  }

  /** The options listed under a question: those of a multiple-choice question that has them. */
  function ShownOptions(q: ExamQuestion): (r: seq<string>)
    ensures q.qtype == "multiple_choice" && q.options.Some? ==> r == q.options.value
    ensures q.qtype != "multiple_choice" || q.options.None? ==> r == []
  {
    if q.qtype == "multiple_choice" && q.options.Some? then q.options.value else []
  }

  function DigitChar(d: nat): (c: char)
    requires d < 10
    ensures '0' <= c <= '9' && c as int - '0' as int == d
  {
    ('0' as int + d) as char
  }

  predicate IsDigits(s: string) {
    forall i :: 0 <= i < |s| ==> '0' <= s[i] <= '9'
  }

  /** The decimal digits of `n`, without leading zeros, as JavaScript prints an integer. */
  function NatToDecimal(n: nat): (r: string)
    ensures r != [] && IsDigits(r)
    ensures r[0] == '0' ==> n == 0 && r == "0"
    decreases n
  {
    if n < 10 then [DigitChar(n)] else NatToDecimal(n / 10) + [DigitChar(n % 10)]
  }

  /** The value of a string of decimal digits. */
  function DecimalValue(s: string): nat
    requires IsDigits(s)
    decreases |s|
  {
    if s == [] then 0 else 10 * DecimalValue(s[..|s| - 1]) + (s[|s| - 1] as int - '0' as int)
  }

  /** The digits printed for `n` read back as `n`. */
  lemma {:induction false} DecimalRoundTrip(n: nat)
    ensures DecimalValue(NatToDecimal(n)) == n
    decreases n
  {
    var r := NatToDecimal(n);
    if n >= 10 {
      DecimalRoundTrip(n / 10);
      assert r[..|r| - 1] == NatToDecimal(n / 10);
    }
  }

  /** `${points}` for an integer number of points. */
  function IntToDecimal(n: int): (r: string)
    ensures r != []
    ensures n >= 0 ==> IsDigits(r) && DecimalValue(r) == n
  {
    DecimalRoundTrip(if n < 0 then -n else n);
    if n < 0 then "-" + NatToDecimal(-n) else NatToDecimal(n)
  }

  /** The label `(<points> pt)` or `(<points> pts)`: "pt" exactly when the question is worth 1 point. */
  function PointsLabel(points: int): (r: string)
    ensures |r| >= 6 && r[0] == '('
    ensures r[|r| - 4..] == (if points == 1 then " pt)" else "pts)")
  {
    "(" + IntToDecimal(points) + " pt" + (if points != 1 then "s" else "") + ")"
  }

  /** The number in a points label is the question's points. */
  lemma PointsLabelShowsPoints(points: nat)
    ensures var digits := NatToDecimal(points);
      PointsLabel(points)[1..1 + |digits|] == digits && DecimalValue(digits) == points
  {
    DecimalRoundTrip(points);
    var digits := NatToDecimal(points);
    var tail := " pt" + (if points != 1 then "s" else "") + ")";
    assert PointsLabel(points) == "(" + digits + tail;
    assert ("(" + digits + tail)[1..1 + |digits|] == digits;
  }

  /** One formatted question. */
  datatype RenderedQuestion = RenderedQuestion(
    number: nat,
    prompt: string,
    pointsLabel: string,
    options: seq<string>,
    trueFalseLine: bool,
    blankLines: nat,
    rubric: Option<string>)

  /** One formatted section. */
  datatype RenderedSection = RenderedSection(title: string, instructions: string, questions: seq<RenderedQuestion>)

  /**
   * A question as the exam body shows it: its number, the text, the points label, the options of
   * a multiple-choice question, the "True / False" line of a true/false one, the blank lines, and
   * the rubric (a non-empty one, under a question with blank lines).
   */
  function RenderQuestion(number: nat, q: ExamQuestion): (r: RenderedQuestion)
    ensures r.number == number && r.prompt == q.prompt && r.pointsLabel == PointsLabel(q.points)
    ensures r.options == ShownOptions(q) && r.blankLines == BlankLines(q.qtype)
    ensures r.trueFalseLine <==> q.qtype == "true_false"
    ensures r.rubric.Some? <==> r.blankLines > 0 && q.gradingRubric.Some? && q.gradingRubric.value != ""
    ensures r.rubric.Some? ==> r.rubric == q.gradingRubric
  {
    RenderedQuestion(
      number,
      q.prompt,
      PointsLabel(q.points),
      ShownOptions(q),
      q.qtype == "true_false",
      BlankLines(q.qtype),
      if (q.qtype == "short_answer" || q.qtype == "essay") && q.gradingRubric.Some? && q.gradingRubric.value != ""
      then q.gradingRubric else None)
  }

  /** A section: its questions in order, numbered from 1 (`idx + 1`). */
  function RenderSection(s: ExamSection): (r: RenderedSection)
    ensures r.title == s.title && r.instructions == s.instructions
    ensures |r.questions| == |s.questions|
    ensures forall j :: 0 <= j < |s.questions| ==>
      r.questions[j].number == j + 1 && r.questions[j].prompt == s.questions[j].prompt
      && r.questions[j].blankLines == BlankLines(s.questions[j].qtype)
    ensures forall j :: 0 <= j < |s.questions| ==> r.questions[j] == RenderQuestion(j + 1, s.questions[j])
  {
    RenderedSection(s.title, s.instructions,
      seq(|s.questions|, j requires 0 <= j < |s.questions| => RenderQuestion(j + 1, s.questions[j])))
  }

  /** The exam body: every section in order, each numbering its questions afresh from 1. */
  function RenderExam(exam: ExamData): (r: seq<RenderedSection>)
    ensures |r| == |exam.sections|
    ensures forall i :: 0 <= i < |r| ==> r[i] == RenderSection(exam.sections[i])
  {
    seq(|exam.sections|, i requires 0 <= i < |exam.sections| => RenderSection(exam.sections[i]))
  }

  /** Numbering restarts in each section: the first question of every non-empty section is number 1. */
  lemma NumberingRestartsPerSection(exam: ExamData, i: nat)
    requires i < |exam.sections| && exam.sections[i].questions != []
    ensures RenderExam(exam)[i].questions[0].number == 1
  {
  }

  /** One line of the answer key: `<number>.` and the answer. */
  datatype KeyLine = KeyLine(lead: string, answer: string)

  /** `Object.entries(data.answer_key || {})`: every entry in order, and nothing when absent. */
  function AnswerKeyView(exam: ExamData): (r: seq<KeyLine>)
    ensures exam.answerKey.None? ==> r == []
    ensures exam.answerKey.Some? ==>
      |r| == |exam.answerKey.value|
      && forall i :: 0 <= i < |r| ==>
        r[i].lead == exam.answerKey.value[i].0 + "." && r[i].answer == exam.answerKey.value[i].1
  {
    match exam.answerKey
    case None => []
    case Some(entries) =>
      seq(|entries|, i requires 0 <= i < |entries| => KeyLine(entries[i].0 + ".", entries[i].1))
  }

  /** `type.replace('_', ' ')`: a string pattern replaces only the first underscore. */
  function ReplaceFirstUnderscore(s: string): (r: string)
    ensures |r| == |s|
    ensures forall i :: 0 <= i < |s| ==> r[i] == (if s[i] == '_' && '_' !in s[..i] then ' ' else s[i])
  {
    if s == [] then []
    else if s[0] == '_' then " " + s[1..]
    else
      var rest := ReplaceFirstUnderscore(s[1..]);
      assert forall i :: 1 <= i < |s| ==> s[1..][..i - 1] == s[1..i] && s[..i] == [s[0]] + s[1..i];
      [s[0]] + rest
  }

  /** The point-distribution card: each question type, spaced, with `<pts> pts`. */
  function DistributionView(exam: ExamData): (r: Option<seq<KeyLine>>)
    ensures r.Some? <==> exam.pointDistribution.Some?
    ensures r.Some? ==> (
      |r.value| == |exam.pointDistribution.value|
      && forall i :: 0 <= i < |r.value| ==>
        r.value[i].lead == ReplaceFirstUnderscore(exam.pointDistribution.value[i].0)
        && r.value[i].answer == IntToDecimal(exam.pointDistribution.value[i].1) + " pts")
  {
    match exam.pointDistribution
    case None => None
    case Some(entries) =>
      Some(seq(|entries|, i requires 0 <= i < |entries| =>
        KeyLine(ReplaceFirstUnderscore(entries[i].0), IntToDecimal(entries[i].1) + " pts")))
  }

  /** The exam header: title, subject, total points, time limit in minutes, difficulty, instructions. */
  datatype Header = Header(
    title: string, subject: string, totalPoints: string, timeLimit: string, difficulty: string, instructions: string)

  function HeaderOf(exam: ExamData): (h: Header)
    ensures h.title == exam.examTitle && h.instructions == exam.instructions
    ensures h.subject == exam.subject && h.difficulty == exam.difficulty
    ensures h.totalPoints == IntToDecimal(exam.totalPoints)
    ensures h.timeLimit == IntToDecimal(exam.timeLimitMinutes) + " minutes"
    ensures |h.timeLimit| > 8 && h.timeLimit[|h.timeLimit| - 8..] == " minutes"
  {
    Header(exam.examTitle, exam.subject, IntToDecimal(exam.totalPoints),
      IntToDecimal(exam.timeLimitMinutes) + " minutes", exam.difficulty, exam.instructions)
  }

  /** The two tabs. */
  datatype Tab = ExamTab | KeyTab

  /** What the viewer shows under a tab. */
  datatype View =
    | BodyView(header: Header, sections: seq<RenderedSection>, distribution: Option<seq<KeyLine>>,
               scale: Option<seq<(string, string)>>)
    | KeyView(lines: seq<KeyLine>)

  function ViewOf(exam: ExamData, tab: Tab): (v: View)
    ensures tab == ExamTab ==> (
      && v.BodyView? && v.header == HeaderOf(exam) && v.sections == RenderExam(exam)
      && v.distribution == DistributionView(exam) && v.scale == exam.gradingScale)
    ensures tab == KeyTab ==> v == KeyView(AnswerKeyView(exam))
  {
    match tab
    case ExamTab => BodyView(HeaderOf(exam), RenderExam(exam), DistributionView(exam), exam.gradingScale)
    case KeyTab => KeyView(AnswerKeyView(exam))
  }

  /** The component: the exam data it was given, and the tab flags. */
  class ExamViewer {
    const data: ExamData
    var activeTab: Tab
    var showAnswerKey: bool   // declared by the component, never read or changed

    constructor (exam: ExamData)
      ensures data == exam && activeTab == ExamTab && !showAnswerKey
    {
      data := exam;
      activeTab := ExamTab;
      showAnswerKey := false;
    }

    /** A click on a tab: only the tab changes; the exam data is immutable. */
    method SelectTab(tab: Tab)
      modifies this`activeTab
      ensures activeTab == tab && showAnswerKey == old(showAnswerKey)
      ensures CurrentView() == ViewOf(data, tab)
    {
      activeTab := tab;
    }

    function CurrentView(): View
      reads this
    {
      ViewOf(data, activeTab)
    }
  }
}
