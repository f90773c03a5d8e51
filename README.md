# StudyAI browser client — a verified model

StudyAI is a study assistant: the user describes what they want to study, the page sends the
request over a WebSocket, and the backend answers with one of three artifacts (a flashcard deck,
a practice quiz or a printable exam) or with a clarification question. This project models the
logic of the browser client in Dafny and proves properties of it:

- **SessionControl** (`session.dfy`): the page's session controller (`app/page.tsx`). It covers
  the state record `input / isConnected / isLoading / statusMessage / studyData`, the socket
  handlers, submit, reset and clarification-option selection. Each handler is a transition
  function on a `Page` value. `Step`, `ValidTrace` and `Run` turn them into a state machine
  driven by the events the browser and the rendered page can produce. The class
  `SessionController` holds the same fields and has one method per handler, each proved equal to
  its transition.
- **QuizGrading** (`grading.dfy`): the grading engine of `components/PracticeQuiz.tsx`. It
  covers score, gradable count, rounded percentage, feedback band, the per-question marks, the
  answer map and the one-way submission. The class `PracticeQuiz` holds the component's fields.
- **FlashcardNavigator** (`flashcards.dfy`): the deck navigator of
  `components/FlashcardDeck.tsx`. It covers the clamped index, the flip flag, the growing
  known-set and the view toggles. The class `FlashcardDeck` holds the component's fields.
- **ExamFormatter** (`exam.dfy`): the pure formatting of `components/ExamViewer.tsx`. It covers
  question numbering, options, blank lines, points labels, rubric, answer key and point
  distribution, plus the `activeTab` switch of the class `ExamViewer`.
- Support modules:
  - **Artifacts** (`artifacts.dfy`): the payload datatypes, one variant per `mode`.
  - **Text** (`text.dfy`): JavaScript's `trim`, `toLowerCase` and `charAt(0)`.
  - **Wrappers** (`wrappers.dfy`): `Option`.

JavaScript semantics are written out where they matter:
- `trim` strips the ECMAScript white-space and line-terminator characters.
- `Math.round(score / total * 100)` is computed on exact rationals, as `(200 * score + total) / (2 * total)`;
  where this differs from floating point is under "## Left out" (`QuizGrading.Percentage`).
- An empty string is falsy in `isWrong`.
- The `${points}` of an integer is its decimal digits, with a leading `-` when it is negative.

Both submit paths are modelled: the Generate button and Cmd+Enter. The model corrects the
submit handler so the two paths agree (see "## Findings"). Three behaviours of the code that a
reader might not expect are kept as written:
- an accepted submit leaves `statusMessage` as it is;
- the input box, the chips and the Generate button exist only while no artifact is shown, so
  submitting is possible only then;
- `status` and `error` messages are handled in every state, loading or not.

## Model

| member | source | states |
|---|---|---|
| Text.TrimStart | Project_DATS/AI_project/frontend/app/page.tsx:62 | removes exactly a blank prefix; the result is a suffix of the input and does not start with white space |
| Text.TrimEnd | Project_DATS/AI_project/frontend/app/page.tsx:62 | removes exactly a blank suffix; the result is a prefix of the input and does not end with white space |
| Text.Trim | Project_DATS/AI_project/frontend/app/page.tsx:62 | `trim()` is the slice of the input left after removing a blank prefix and a blank suffix, with no white space at either end |
| Text.TrimEmptyIffBlank | Project_DATS/AI_project/frontend/app/page.tsx:62 | `!input.trim()` holds exactly when the input is made only of white space (both directions) |
| Text.ToLower | AI_project/frontend/components/PracticeQuiz.tsx:39 | same length; every character is the lower-case form of the one at its position |
| Text.ToLowerIdempotent | AI_project/frontend/components/PracticeQuiz.tsx:39 | lower-casing twice equals lower-casing once |
| Text.FirstChar | AI_project/frontend/components/PracticeQuiz.tsx:138 | `charAt(0)` is the one-character prefix, or "" for an empty string |
| SessionControl.Send | Project_DATS/AI_project/frontend/app/page.tsx:66 | the request joins the delivered requests only when the socket is open; nothing else changes |
| SessionControl.Connect | Project_DATS/AI_project/frontend/app/page.tsx:24-26 | a new socket starts connecting; nothing else changes |
| SessionControl.OnOpen | Project_DATS/AI_project/frontend/app/page.tsx:28-31 | connected, socket open, status cleared, every other field unchanged |
| SessionControl.OnClose | Project_DATS/AI_project/frontend/app/page.tsx:48-51 | disconnected, socket closed, one more reconnect pending, every other field unchanged |
| SessionControl.OnRetryTimer | Project_DATS/AI_project/frontend/app/page.tsx:50 | the pending reconnect is consumed and a new socket starts connecting; every other field unchanged |
| SessionControl.OnMessage | Project_DATS/AI_project/frontend/app/page.tsx:33-46 | input, connection, socket, retries, delivered and accepted requests are unchanged; loading ends exactly on `study_content` or `error`; the artifact changes exactly on `study_content`; the status changes only for `status` or a reply; no other field changes |
| SessionControl.EditInput | Project_DATS/AI_project/frontend/app/page.tsx:140 | only the input changes, to the typed text |
| SessionControl.HandleSubmitAsWritten | Project_DATS/AI_project/frontend/app/page.tsx:61-67 | as written: refused only for blank input, no socket or loading; otherwise accepts the input, sets loading, clears the artifact, and delivers the input only if the socket happens to be open |
| SessionControl.HandleSubmit | Project_DATS/AI_project/frontend/app/page.tsx:61-67 | a submit refused by the guard (blank input, no socket, loading, or disconnected as at line 147) changes nothing and sends nothing; an accepted one sets loading, clears the artifact, leaves the status text and delivers the untrimmed input as the one new request |
| SessionControl.HandleReset | Project_DATS/AI_project/frontend/app/page.tsx:75-79 | clears artifact, input and status; loading, connection and everything else unchanged |
| SessionControl.ChooseOption | Project_DATS/AI_project/frontend/app/page.tsx:173-176 | the option becomes the input and the artifact is cleared; nothing else changes |
| SessionControl.Run | Project_DATS/AI_project/frontend/app/page.tsx:24-79 | any valid sequence of events from a state meeting the invariant ends in a state meeting it |
| SessionControl.StepKeepsInv | Project_DATS/AI_project/frontend/app/page.tsx:24-79 | every enabled event preserves the invariant: connection flag mirrors the socket, exactly one reconnect pending iff closed, every accepted submit delivered, loading implies no artifact |
| SessionControl.InitialIsValid | Project_DATS/AI_project/frontend/app/page.tsx:16-21 | the first render meets the invariant |
| SessionControl.StatusChangesOnlyStatusMessage | Project_DATS/AI_project/frontend/app/page.tsx:36-37 | a `status` message changes only the status, in any state |
| SessionControl.StudyContentShowsArtifact | Project_DATS/AI_project/frontend/app/page.tsx:38-41 | `study_content` shows its payload, ends loading and clears the status |
| SessionControl.ErrorEndsLoading | Project_DATS/AI_project/frontend/app/page.tsx:42-44 | `error` shows "Error: " + message, ends loading, keeps the artifact |
| SessionControl.IgnoredMessageChangesNothing | Project_DATS/AI_project/frontend/app/page.tsx:36-46 | a message of any other type leaves the state unchanged |
| SessionControl.CloseSchedulesOneRetry | Project_DATS/AI_project/frontend/app/page.tsx:48-51 | after a close exactly one reconnect is pending |
| SessionControl.OneRequestInFlight | Project_DATS/AI_project/frontend/app/page.tsx:33-67 | while loading, no sequence of events without a reply ends loading or delivers another request |
| SessionControl.SecondSubmitDiscarded | Project_DATS/AI_project/frontend/app/page.tsx:62-66 | submit, edit, submit again: one request in flight, the first input, and the edited text stays in the box |
| SessionControl.NoDeliveryWhileDisconnected | Project_DATS/AI_project/frontend/app/page.tsx:48-66 | from a non-open socket, no events short of an open deliver a request, and the socket stays not open |
| SessionControl.ChooseOptionRearmsSubmit | Project_DATS/AI_project/frontend/app/page.tsx:173-176 | after choosing an option the input box is back and submit is accepted exactly when the option is not blank and the page is connected |
| SessionControl.UnrecognizedArtifactHasNoControls | Project_DATS/AI_project/frontend/app/page.tsx:166-195 | with an artifact of unknown mode, only socket events remain possible |
| SessionControl.DroppedThenTyped | Project_DATS/AI_project/frontend/app/page.tsx:28-59 | the exact state after mount, open, close and typing |
| SessionControl.SubmitAsWrittenLosesRequest | Project_DATS/AI_project/frontend/app/page.tsx:61-73 | as written, Cmd+Enter after a drop starts loading with nothing delivered, breaking the invariant; the corrected submit refuses |
| SessionControl.SubmitAsWrittenBreaksInvWhileDisconnected | Project_DATS/AI_project/frontend/app/page.tsx:61-73 | in every disconnected state, an as-written submit past its guard starts loading for an input that is never delivered; the corrected submit refuses |
| SessionControl.SessionController.constructor | Project_DATS/AI_project/frontend/app/page.tsx:16-21 | the fields start as the initial page, which meets the invariant |
| SessionControl.SessionController.Mount | Project_DATS/AI_project/frontend/app/page.tsx:56-59 | the mount effect's `connect` is the `Connect` transition, invariant kept |
| SessionControl.SessionController.Opened | Project_DATS/AI_project/frontend/app/page.tsx:28-31 | the fields change as `OnOpen` says, invariant kept |
| SessionControl.SessionController.Dropped | Project_DATS/AI_project/frontend/app/page.tsx:48-51 | the fields change as `OnClose` says, invariant kept |
| SessionControl.SessionController.RetryFired | Project_DATS/AI_project/frontend/app/page.tsx:50 | the fields change as `OnRetryTimer` says, invariant kept |
| SessionControl.SessionController.Receive | Project_DATS/AI_project/frontend/app/page.tsx:33-46 | the fields change as `OnMessage` says, invariant kept |
| SessionControl.SessionController.ChangeInput | Project_DATS/AI_project/frontend/app/page.tsx:140 | the fields change as `EditInput` says, invariant kept |
| SessionControl.SessionController.Submit | Project_DATS/AI_project/frontend/app/page.tsx:61-67 | the fields change as `HandleSubmit` says, invariant kept |
| SessionControl.SessionController.Reset | Project_DATS/AI_project/frontend/app/page.tsx:75-79 | the fields change as `HandleReset` says, invariant kept |
| SessionControl.SessionController.PickOption | Project_DATS/AI_project/frontend/app/page.tsx:173-176 | the fields change as `ChooseOption` says, invariant kept |
| QuizGrading.GradableQuestions | AI_project/frontend/components/PracticeQuiz.tsx:43 | its elements are exactly the questions that are not short answer |
| QuizGrading.CorrectQuestions | AI_project/frontend/components/PracticeQuiz.tsx:37-40 | its elements are exactly the gradable questions whose recorded answer equals the key ignoring case |
| QuizGrading.GradableMultiplicity | AI_project/frontend/components/PracticeQuiz.tsx:43 | the gradable filter keeps every copy of each non-short-answer question and nothing else |
| QuizGrading.CorrectMultiplicity | AI_project/frontend/components/PracticeQuiz.tsx:37-40 | the correct filter keeps every copy of each correctly answered gradable question and nothing else |
| QuizGrading.GradableCount | AI_project/frontend/components/PracticeQuiz.tsx:43 | the gradable filter is as long as the number of positions holding a non-short-answer question |
| QuizGrading.CorrectCount | AI_project/frontend/components/PracticeQuiz.tsx:37-40 | the correct filter is as long as the number of positions holding a correctly answered gradable question |
| QuizGrading.TotalGradable | AI_project/frontend/components/PracticeQuiz.tsx:43 | `totalGradable` is the number of positions holding a question that is not short answer |
| QuizGrading.CorrectAtMostGradable | AI_project/frontend/components/PracticeQuiz.tsx:37-43 | the correct count never exceeds the gradable count |
| QuizGrading.Score | AI_project/frontend/components/PracticeQuiz.tsx:36-41 | 0 before submission; after it, the number of positions holding a gradable question whose answer matches the key ignoring case; never more than `totalGradable` |
| QuizGrading.Percentage | AI_project/frontend/components/PracticeQuiz.tsx:44 | 0 when nothing is gradable; otherwise the integer nearest to 100·score/total, halves rounded up |
| QuizGrading.DivAtLeast | AI_project/frontend/components/PracticeQuiz.tsx:44 | integer division is at least k exactly when the dividend reaches k times the divisor |
| QuizGrading.PercentageInRange | AI_project/frontend/components/PracticeQuiz.tsx:44 | the percentage lies in [0, 100] |
| QuizGrading.PercentageFull | AI_project/frontend/components/PracticeQuiz.tsx:44 | 100% exactly when score ≥ 99.5% of the total; a full score gives 100 |
| QuizGrading.PercentageMonotone | AI_project/frontend/components/PracticeQuiz.tsx:44 | a higher score never gives a lower percentage |
| QuizGrading.QuizPercentageInRange | AI_project/frontend/components/PracticeQuiz.tsx:36-44 | in every quiz state the percentage is in [0, 100], and 0 with nothing gradable |
| QuizGrading.FeedbackBand | AI_project/frontend/components/PracticeQuiz.tsx:46-49 | high exactly at ≥ 90, low exactly below 70, mid otherwise |
| QuizGrading.BandFromRatio | AI_project/frontend/components/PracticeQuiz.tsx:44-49 | high exactly when score/total ≥ 0.895, low exactly when below 0.695 |
| QuizGrading.IsCorrect | AI_project/frontend/components/PracticeQuiz.tsx:107 | a card marked correct is submitted, not short answer, and answered |
| QuizGrading.IsWrong | AI_project/frontend/components/PracticeQuiz.tsx:108 | a card marked wrong is submitted, not short answer, has a non-empty answer, and that answer differs from the key ignoring case |
| QuizGrading.ScoreCountsCorrectMarks | AI_project/frontend/components/PracticeQuiz.tsx:107 | in every state the score equals the number of question cards marked correct |
| QuizGrading.QuestionMarks | AI_project/frontend/components/PracticeQuiz.tsx:107-108 | never both correct and wrong; neither before submission or for short answer; a submitted gradable question that is not correct is wrong exactly when it has a non-empty answer |
| QuizGrading.CorrectQuestionsAppend | AI_project/frontend/components/PracticeQuiz.tsx:37-40 | the correct filter distributes over concatenation |
| QuizGrading.GradableQuestionsAppend | AI_project/frontend/components/PracticeQuiz.tsx:43 | the gradable filter distributes over concatenation |
| QuizGrading.ScorePermutationInvariant | AI_project/frontend/components/PracticeQuiz.tsx:36-43 | any reordering of the questions keeps score and gradable count |
| QuizGrading.ShortAnswerNeverCounts | AI_project/frontend/components/PracticeQuiz.tsx:36-43 | inserting a short-answer question changes neither score nor total |
| QuizGrading.ScoreIgnoresCase | AI_project/frontend/components/PracticeQuiz.tsx:39 | answers equal up to case give the same correct set and score |
| QuizGrading.HandleAnswer | AI_project/frontend/components/PracticeQuiz.tsx:51-54 | nothing once submitted; otherwise only `answers[qId]` changes, every other entry and the short-answer map are kept |
| QuizGrading.OptionAnswer | AI_project/frontend/components/PracticeQuiz.tsx:138-146 | a multiple-choice click records the option's first character, "" for an empty option |
| QuizGrading.TrueFalseAnswer | AI_project/frontend/components/PracticeQuiz.tsx:160-168 | a true/false click records "True" or "False", matching the button |
| QuizGrading.EditShortAnswer | AI_project/frontend/components/PracticeQuiz.tsx:188-189 | the textarea edits only its own entry, and nothing once submitted |
| QuizGrading.SubmitAnswers | AI_project/frontend/components/PracticeQuiz.tsx:223-227 | submitted afterwards exactly when already submitted or some answer is recorded; the maps are unchanged |
| QuizGrading.SubmittedIsFinal | AI_project/frontend/components/PracticeQuiz.tsx:223-237 | after submission no sequence of actions changes the state |
| QuizGrading.AnsweredOnlyGrows | AI_project/frontend/components/PracticeQuiz.tsx:51-54 | the answered questions only grow and submission is never undone |
| QuizGrading.OptionMarkAsWritten | AI_project/frontend/components/PracticeQuiz.tsx:137-141 | as written: green exactly when submitted and the key equals the option letter case-sensitively; red exactly when submitted, selected and not equal; selected-only exactly before submission |
| QuizGrading.OptionMark | AI_project/frontend/components/PracticeQuiz.tsx:137-141 | corrected: the same highlight with the key compared ignoring case, as the score does |
| QuizGrading.OptionMarkAgreesWithQuestion | AI_project/frontend/components/PracticeQuiz.tsx:137-141 | the corrected option highlight marks the selected option correct or wrong exactly as the question card does |
| QuizGrading.OptionMarkAsWrittenDisagrees | AI_project/frontend/components/PracticeQuiz.tsx:140 | as written, key "b" and answer "B": the card says correct while the selected option is highlighted wrong |
| QuizGrading.GradingIgnoresCaseExample | AI_project/frontend/components/PracticeQuiz.tsx:39 | "paris" and "Paris" are both correct for the key "Paris" |
| QuizGrading.TwoOfThreeExample | AI_project/frontend/components/PracticeQuiz.tsx:36-44 | two correct out of three gradable give 2 and 67% |
| QuizGrading.PracticeQuiz.constructor | AI_project/frontend/components/PracticeQuiz.tsx:31-35 | starts with no answers, not submitted, no short-answer text |
| QuizGrading.PracticeQuiz.Answer | AI_project/frontend/components/PracticeQuiz.tsx:51-54 | the fields change as `HandleAnswer` says |
| QuizGrading.PracticeQuiz.ClickOption | AI_project/frontend/components/PracticeQuiz.tsx:137-146 | records the option's first character through `HandleAnswer` |
| QuizGrading.PracticeQuiz.ClickTrueFalse | AI_project/frontend/components/PracticeQuiz.tsx:160-168 | records "True" or "False" through `HandleAnswer` |
| QuizGrading.PracticeQuiz.WriteShortAnswer | AI_project/frontend/components/PracticeQuiz.tsx:188-189 | the fields change as `EditShortAnswer` says |
| QuizGrading.PracticeQuiz.Submit | AI_project/frontend/components/PracticeQuiz.tsx:223-227 | the fields change as `SubmitAnswers` says |
| QuizGrading.PracticeQuiz.CurrentScore | AI_project/frontend/components/PracticeQuiz.tsx:36-43 | the shown score never exceeds the gradable count |
| QuizGrading.PracticeQuiz.CurrentPercentage | AI_project/frontend/components/PracticeQuiz.tsx:44 | the shown percentage is at most 100 |
| FlashcardNavigator.CardIdsBound | Project_DATS/AI_project/frontend/components/FlashcardDeck.tsx:49 | a deck has at most as many distinct ids as cards |
| FlashcardNavigator.NextCard | Project_DATS/AI_project/frontend/components/FlashcardDeck.tsx:38-41 | unflipped; index + 1 except on the last card where it stays; always on a card; nothing else changes |
| FlashcardNavigator.PrevCard | Project_DATS/AI_project/frontend/components/FlashcardDeck.tsx:43-46 | unflipped; index − 1 except on the first card where it stays; nothing else changes |
| FlashcardNavigator.MarkCardKnown | Project_DATS/AI_project/frontend/components/FlashcardDeck.tsx:48-51 | adds the current card's id, then moves as `goNext`; the view flags are kept |
| FlashcardNavigator.StillLearning | Project_DATS/AI_project/frontend/components/FlashcardDeck.tsx:152 | exactly the `goNext` move; the known set is kept |
| FlashcardNavigator.FlipCard | Project_DATS/AI_project/frontend/components/FlashcardDeck.tsx:100 | negates the flip flag and nothing else |
| FlashcardNavigator.ToggleShowAll | Project_DATS/AI_project/frontend/components/FlashcardDeck.tsx:179 | negates `showAll`; index, flip, known set and tips unchanged |
| FlashcardNavigator.ToggleShowTips | Project_DATS/AI_project/frontend/components/FlashcardDeck.tsx:186 | negates `showTips`; index, flip, known set and view unchanged |
| FlashcardNavigator.PressKeepsInv | Project_DATS/AI_project/frontend/components/FlashcardDeck.tsx:38-51 | every available control keeps the index on a card and the known set inside the deck's ids, and only adds to it |
| FlashcardNavigator.PressesKeepInv | Project_DATS/AI_project/frontend/components/FlashcardDeck.tsx:38-51 | over any sequence of presses: invariant kept, known set grows, never more known cards than cards |
| FlashcardNavigator.RepeatedNext | Project_DATS/AI_project/frontend/components/FlashcardDeck.tsx:40 | k presses of Next reach card min(index + k, len − 1) |
| FlashcardNavigator.RepeatedPrev | Project_DATS/AI_project/frontend/components/FlashcardDeck.tsx:45 | k presses of Previous reach card max(index − k, 0) |
| FlashcardNavigator.EnabledMovesOneCard | Project_DATS/AI_project/frontend/components/FlashcardDeck.tsx:143-167 | an enabled Next/Previous moves exactly one card, unflipped; disabled at the last/first card it does nothing |
| FlashcardNavigator.FlashcardDeck.constructor | Project_DATS/AI_project/frontend/components/FlashcardDeck.tsx:29-35 | first card, unflipped, nothing known, card view, tips hidden |
| FlashcardNavigator.FlashcardDeck.GoNext | Project_DATS/AI_project/frontend/components/FlashcardDeck.tsx:38-41 | the fields change as `NextCard` says, invariant kept |
| FlashcardNavigator.FlashcardDeck.GoPrev | Project_DATS/AI_project/frontend/components/FlashcardDeck.tsx:43-46 | the fields change as `PrevCard` says, invariant kept |
| FlashcardNavigator.FlashcardDeck.MarkKnown | Project_DATS/AI_project/frontend/components/FlashcardDeck.tsx:48-51 | the fields change as `MarkCardKnown` says; the known set only grows |
| FlashcardNavigator.FlashcardDeck.KeepLearning | Project_DATS/AI_project/frontend/components/FlashcardDeck.tsx:152 | the fields change as `StillLearning` says, invariant kept |
| FlashcardNavigator.FlashcardDeck.Flip | Project_DATS/AI_project/frontend/components/FlashcardDeck.tsx:100 | the fields change as `FlipCard` says |
| FlashcardNavigator.FlashcardDeck.ShowAllToggle | Project_DATS/AI_project/frontend/components/FlashcardDeck.tsx:179 | the fields change as `ToggleShowAll` says |
| FlashcardNavigator.FlashcardDeck.ShowTipsToggle | Project_DATS/AI_project/frontend/components/FlashcardDeck.tsx:186 | the fields change as `ToggleShowTips` says |
| ExamFormatter.BlankLines | AI_project/frontend/components/ExamViewer.tsx:163-167 | 8 exactly for essay, 3 exactly for short answer, 0 exactly for every other type |
| ExamFormatter.ShownOptions | AI_project/frontend/components/ExamViewer.tsx:149-155 | the options exactly for a multiple-choice question that has them, none otherwise |
| ExamFormatter.NatToDecimal | AI_project/frontend/components/ExamViewer.tsx:145 | a non-empty string of digits with no leading zero |
| ExamFormatter.DecimalRoundTrip | AI_project/frontend/components/ExamViewer.tsx:145 | the printed digits read back as the number |
| ExamFormatter.IntToDecimal | AI_project/frontend/components/ExamViewer.tsx:145 | non-empty, and for a non-negative number its digits read back as it |
| ExamFormatter.PointsLabel | AI_project/frontend/components/ExamViewer.tsx:145 | a parenthesised label ending in " pt)" exactly when points = 1, "pts)" otherwise |
| ExamFormatter.PointsLabelShowsPoints | AI_project/frontend/components/ExamViewer.tsx:145 | the number in the label is the question's points |
| ExamFormatter.RenderQuestion | AI_project/frontend/components/ExamViewer.tsx:139-172 | number, text, `PointsLabel` of the points, `ShownOptions`, the true/false line exactly for true_false, `BlankLines` of the type, and the rubric exactly when the question has blank lines and a non-empty rubric |
| ExamFormatter.RenderSection | AI_project/frontend/components/ExamViewer.tsx:131-174 | one entry per question, in order, each exactly `RenderQuestion` of the question numbered from 1 (`idx + 1`); the section title and instructions are carried |
| ExamFormatter.RenderExam | AI_project/frontend/components/ExamViewer.tsx:130-177 | one rendered section per section, in order |
| ExamFormatter.NumberingRestartsPerSection | AI_project/frontend/components/ExamViewer.tsx:138-142 | the first question of every section is number 1 |
| ExamFormatter.AnswerKeyView | AI_project/frontend/components/ExamViewer.tsx:216-221 | every answer-key entry in order as "number." and answer; nothing when the key is absent |
| ExamFormatter.ReplaceFirstUnderscore | AI_project/frontend/components/ExamViewer.tsx:186 | only the first underscore becomes a space; every other character is kept |
| ExamFormatter.DistributionView | AI_project/frontend/components/ExamViewer.tsx:180-192 | present exactly when the distribution is; one line per entry with the spaced type and "<pts> pts" |
| ExamFormatter.HeaderOf | AI_project/frontend/components/ExamViewer.tsx:94-116 | the header carries the exam title, subject, difficulty and instructions, the total points printed as an integer, and the time limit printed as an integer followed by " minutes" |
| ExamFormatter.ViewOf | AI_project/frontend/components/ExamViewer.tsx:91-224 | the exam tab shows exactly the header, the rendered sections, the point-distribution card and the grading scale; the key tab shows the answer-key view |
| ExamFormatter.ExamViewer.constructor | AI_project/frontend/components/ExamViewer.tsx:41-42 | starts on the exam tab with the given data |
| ExamFormatter.ExamViewer.SelectTab | AI_project/frontend/components/ExamViewer.tsx:77-86 | only the tab changes; the exam data is immutable and the view is that tab's view |

## Left out

- WebSocket, `JSON.parse` and timers: the socket is an abstract `Socket` state and inbound
  messages are already-parsed `Inbound` values. `JSON.parse` (page.tsx:34) is unguarded, so a
  malformed frame would throw; the model claims nothing about one. The 3000 ms reconnect timer
  is a pending counter and its firing is a `RetryTimer` event.
- The random client id (page.tsx:22) and the URL from the environment (page.tsx:25): these are
  nondeterminism and configuration.
- The `useEffect` teardown (page.tsx:58) and React StrictMode's double mount: the teardown closes
  the socket without cancelling the reconnect timer, and the model has no unmount.
- `ws.send` on a socket that is still connecting throws in the browser. The model delivers
  nothing then and keeps the state updates made before the call. The corrected submit never
  reaches that case, because it requires an open socket.
- A second `study_content` that arrives while an artifact is shown replaces it. The message
  handler models this; no lemma is about it. The page mounts `FlashcardDeck` and `PracticeQuiz`
  without a `key` (page.tsx:187-192), so React keeps their state when an artifact of the same mode
  replaces the shown one. The component models assume a fresh mount per artifact; with kept state,
  the navigator's invariant (index on a card, known ids inside the deck) may not hold.
- SessionControl.OneRequestInFlight proves that loading ends only with a reply. Two reachable
  cases leave the page refusing every submit until it is reloaded: the socket drops while a
  request is in flight, because the reply was owed on the dead connection (page.tsx:48-51); and
  the backend answers with its generic `message` reply, which the client ignores. The model
  keeps this behaviour as written and does not model a corrected variant.
- SessionControl.Step, Enabled, ValidTrace, FlashcardNavigator.Press, Available, ValidPresses,
  RunPresses, QuizGrading.ApplyAction, RunQuiz and ExamFormatter.ExamViewer.CurrentView carry no
  `ensures` of their own: they only wire the controls to the transitions. What they do is stated
  by StepKeepsInv, Run, the trace lemmas, PressKeepsInv, PressesKeepInv, RepeatedNext,
  RepeatedPrev, EnabledMovesOneCard, SubmittedIsFinal, AnsweredOnlyGrows and SelectTab.
- Text.FirstChar: strings are sequences of Unicode scalar values, while `charAt(0)` returns one
  UTF-16 code unit. An option starting with a character outside the Basic Multilingual Plane
  records a lone surrogate in the browser; the model records the whole character.
- Text.ToLower: only ASCII letters are lower-cased. JavaScript's full Unicode case mapping
  (including length-changing mappings) is not modelled.
- QuizGrading.Score: a question without an `answer` field (`q.answer?.toLowerCase()`) is not
  modelled. Every question carries a string answer, and `data.questions || []` is the given sequence.
- QuizGrading.Percentage: exact rational arithmetic replaces JavaScript's floating-point division
  before `Math.round`. The two differ where the floating-point quotient falls just below a half:
  for 23 of 40 JavaScript computes 57.49999… and shows 57, where the model gives 58.
- Rendering: the flashcard progress bar (FlashcardDeck.tsx:89, floating point), all JSX markup
  and CSS classes, the colour tables, the "known" counter text, and `window.print`
  (ExamViewer.tsx:44-46).
- Delays: the 100 ms and 150 ms delays before the flashcard index moves
  (FlashcardDeck.tsx:40,45,152) are folded into one atomic step.
- ExamFormatter.IntToDecimal: only integers are printed. A non-integer `points` or
  `total_points` from the payload is not modelled.
- ExamFormatter.ViewOf: the grading scale is shown as its raw entries. `data.sections || []` is
  the given sequence.
- ExamFormatter.ExamViewer: `showAnswerKey` is declared by the component but never read or
  changed; the model keeps it constant.
- The backend (`backend/main.py`) and the agent definitions (`*/agent.py`) are not part of this
  model. Their message tags appear as the `Inbound` variants, `Ignored` standing for
  `connected` and `message`.

## Findings

| source | as written | input that shows it | evidently intended | confidence | as-written member | corrected member |
|---|---|---|---|---|---|---|
| Project_DATS/AI_project/frontend/app/page.tsx:62 | `handleSubmit` refuses only a blank input, a missing socket or a request in flight; it never checks `isConnected`. Cmd+Enter (lines 69-73) calls it directly, bypassing the Generate button's `disabled` (line 147). | Mount, open, the socket closes, type "Quiz me", press Cmd+Enter: `isLoading` becomes true but the closed socket delivers nothing, so nothing will end the loading state | refuse the submit while disconnected, as the button does | not executed | SessionControl.SubmitAsWrittenLosesRequest | SessionControl.HandleSubmit |
| AI_project/frontend/components/PracticeQuiz.tsx:140 | the option highlight compares `q.answer === optLetter` case-sensitively (also line 162), while `isCorrect` (line 107) ignores case | key "b", the user clicks "B) Paris": the card is marked correct and counted in the score, yet the selected option is highlighted wrong and no option correct | compare ignoring case, as the score does | not executed | QuizGrading.OptionMarkAsWrittenDisagrees | QuizGrading.OptionMarkAgreesWithQuestion |
