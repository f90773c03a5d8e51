/**
 * The study artifacts the backend delivers in a `study_content` message, as the client's
 * components declare them: a closed sum type keyed on the payload's `mode`.
 */
module Artifacts {
  import opened Wrappers

  /** One card of a flashcard deck (FlashcardDeck.tsx, `interface Flashcard`). */
  datatype Flashcard = Flashcard(
    id: int,
    term: string,
    definition: string,
    hint: string,
    example: string,
    category: string)

  /** `FlashcardDeckData`; a missing `flashcards` array is the empty sequence (`data.flashcards || []`). */
  datatype FlashcardDeckData = FlashcardDeckData(
    deckTitle: string,
    subject: string,
    cardCount: int,
    difficulty: string,
    flashcards: seq<Flashcard>,
    studyTips: seq<string>)

  /** The three question types a practice set declares. */
  datatype QuestionType = MultipleChoice | TrueFalse | ShortAnswer

  /** A practice question (PracticeQuiz.tsx, `interface Question`). */
  datatype Question = Question(
    id: int,
    qtype: QuestionType,
    bloomLevel: string,
    prompt: string,
    options: Option<seq<string>>,
    answer: string,
    explanation: string,
    keyPoints: Option<seq<string>>)

  /** `PracticeData`; a missing `questions` array is the empty sequence (`data.questions || []`). */
  datatype PracticeData = PracticeData(
    topic: string,
    questionCount: int,
    difficulty: string,
    bloomLevelsCovered: seq<string>,
    questions: seq<Question>,
    studyRecommendations: seq<string>)

  /** An exam question (ExamViewer.tsx, `interface ExamQuestion`); its type is free text there. */
  datatype ExamQuestion = ExamQuestion(
    id: int,
    qtype: string,
    prompt: string,
    options: Option<seq<string>>,
    points: int,
    gradingRubric: Option<string>)

  datatype ExamSection = ExamSection(
    sectionNumber: int,
    title: string,
    instructions: string,
    pointValuePerQuestion: int,
    questions: seq<ExamQuestion>)

  /**
   * `ExamData`. The JSON objects `answer_key`, `point_distribution` and `grading_scale` are kept
   * as their entries in enumeration order (what `Object.entries` yields); `None` is an absent field.
   */
  datatype ExamData = ExamData(
    examTitle: string,
    subject: string,
    totalPoints: int,
    timeLimitMinutes: int,
    difficulty: string,
    instructions: string,
    sections: seq<ExamSection>,
    answerKey: Option<seq<(string, string)>>,
    pointDistribution: Option<seq<(string, int)>>,
    gradingScale: Option<seq<(string, string)>>)

  /**
   * The `data` of a `study_content` message, by its `mode`. `Unrecognized` is a payload whose
   * mode is none of the four the page renders.
   */
  datatype StudyData =
    | Flashcards(deck: FlashcardDeckData)
    | Practice(practice: PracticeData)
    | Exam(exam: ExamData)
    | Clarification(message: string, options: seq<string>)
    | Unrecognized(mode: string)
  {
    /** The payload's `mode` discriminant. */
    function Mode(): (m: string)
      ensures Unrecognized? || m in {"flashcards", "practice", "exam", "clarification"}
    {
      match this
      case Flashcards(_) => "flashcards"
      case Practice(_) => "practice"
      case Exam(_) => "exam"
      case Clarification(_, _) => "clarification"
      case Unrecognized(mode) => mode
    }
  }
}
