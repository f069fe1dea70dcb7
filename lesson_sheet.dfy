/** The lesson sheet's quiz: one chosen option per question (-1 while
    unanswered), a flag that freezes the answers once submitted, and the
    score counted at submission. */
module LessonSheet {
  import opened Types

  const UNANSWERED := -1

  /** The number of questions whose chosen option is the correct one. */
  function Score(questions: seq<QuizQuestion>, answers: seq<int>): (r: nat)
    requires |answers| == |questions|
    ensures r <= |questions|
    decreases |questions|
  {
    if |questions| == 0 then 0
    else
      var n := |questions| - 1;
      Score(questions[..n], answers[..n]) + (if answers[n] == questions[n].correctIndex then 1 else 0)
  }

  /** The score lies between 0 and the number of questions; it is the full
      count exactly when every answer is correct, and 0 exactly when none is. */
  lemma {:induction false} ScoreBounds(questions: seq<QuizQuestion>, answers: seq<int>)
    requires |answers| == |questions|
    ensures Score(questions, answers) <= |questions|
    ensures Score(questions, answers) == |questions| <==>
      forall i :: 0 <= i < |questions| ==> answers[i] == questions[i].correctIndex
    ensures Score(questions, answers) == 0 <==>
      forall i :: 0 <= i < |questions| ==> answers[i] != questions[i].correctIndex
    decreases |questions|
  {
    if |questions| > 0 {
      var n := |questions| - 1;
      var qs, ans := questions[..n], answers[..n];
      ScoreBounds(qs, ans);
      assert forall i :: 0 <= i < n ==> qs[i] == questions[i] && ans[i] == answers[i];
    }
  }

  /** The `forEach` loop of `handleSubmitQuiz`. */
  method CountScore(questions: seq<QuizQuestion>, answers: seq<int>) returns (newScore: nat)
    requires |answers| == |questions|
    ensures newScore == Score(questions, answers)
  {
    newScore := 0;
    var idx := 0;
    while idx < |questions|
      invariant 0 <= idx <= |questions|
      invariant newScore == Score(questions[..idx], answers[..idx])
    {
      assert questions[..idx + 1][..idx] == questions[..idx];
      assert answers[..idx + 1][..idx] == answers[..idx];
      if answers[idx] == questions[idx].correctIndex {
        newScore := newScore + 1;
      }
      idx := idx + 1;
    }
    assert questions[..idx] == questions && answers[..idx] == answers;
  }

  /** Every answer is unanswered or one of its question's options. */
  predicate AnswersFit(questions: seq<QuizQuestion>, answers: seq<int>) {
    && |answers| == |questions|
    && forall i :: 0 <= i < |answers| ==>
         answers[i] == UNANSWERED || 0 <= answers[i] < |questions[i].options|
  }

  /** `disabled={selectedAnswers.includes(-1)}`, negated. */
  predicate SubmitEnabled(answers: seq<int>) {
    UNANSWERED !in answers
  }

  /** With fitting answers, the submit button is enabled exactly when every
      question has one of its options chosen. */
  lemma SubmitEnabledIffAllAnswered(questions: seq<QuizQuestion>, answers: seq<int>)
    requires AnswersFit(questions, answers)
    ensures SubmitEnabled(answers) <==>
      forall i :: 0 <= i < |answers| ==> 0 <= answers[i] < |questions[i].options|
  {
    if !SubmitEnabled(answers) {
      var i :| 0 <= i < |answers| && answers[i] == UNANSWERED;
    }
  }

  // ---------------------------------------------------------------------
  // How an option is drawn
  // ---------------------------------------------------------------------

  datatype OptionStyle = Plain | Chosen | Correct | Wrong | Dimmed

  /** Before submission an option is highlighted when chosen; afterwards the
      correct option is marked correct, a chosen wrong option is marked
      wrong, and every other option is dimmed. */
  function ClassifyOption(submitted: bool, chosen: int, option: int, correctIndex: int): (r: OptionStyle)
    ensures r == Correct <==> submitted && option == correctIndex
    ensures r == Wrong <==> submitted && chosen == option && option != correctIndex
    ensures r == Chosen <==> !submitted && chosen == option
    ensures r == Dimmed <==> submitted && chosen != option && option != correctIndex
  {
    if submitted then
      if option == correctIndex then Correct
      else if chosen == option then Wrong
      else Dimmed
    else if chosen == option then Chosen else Plain
  }

  /** The check icon of an option. */
  predicate ShowsCheck(submitted: bool, option: int, correctIndex: int) {
    submitted && option == correctIndex
  }

  /** The cross icon of an option. */
  predicate ShowsCross(submitted: bool, chosen: int, option: int, correctIndex: int) {
    submitted && chosen == option && option != correctIndex
  }

  /** After submission every option of a question falls in exactly one of
      three classes, and the icons agree with the classes. */
  lemma SubmittedOptionClasses(chosen: int, option: int, correctIndex: int)
    ensures var c := ClassifyOption(true, chosen, option, correctIndex);
      && (c == Correct || c == Wrong || c == Dimmed)
      && (c == Correct <==> ShowsCheck(true, option, correctIndex))
      && (c == Wrong <==> ShowsCross(true, chosen, option, correctIndex))
  {
  }

  /** After submission, a question with a valid correct index shows exactly
      one correct option, and shows a wrong option exactly when the chosen
      option was wrong; so the question adds to the score exactly when no
      option of it is drawn wrong. */
  lemma SubmittedQuestionDisplay(q: QuizQuestion, chosen: int)
    requires 0 <= q.correctIndex < |q.options|
    requires 0 <= chosen < |q.options|
    ensures forall o :: 0 <= o < |q.options| ==>
      (ClassifyOption(true, chosen, o, q.correctIndex) == Correct <==> o == q.correctIndex)
    ensures (exists o :: 0 <= o < |q.options| && ClassifyOption(true, chosen, o, q.correctIndex) == Wrong)
      <==> chosen != q.correctIndex
  {
    if chosen != q.correctIndex {
      assert ClassifyOption(true, chosen, chosen, q.correctIndex) == Wrong;
    }
  }

  // ---------------------------------------------------------------------
  // The sheet's state
  // ---------------------------------------------------------------------

  class QuizSheet {
    const questions: seq<QuizQuestion>
    var selectedAnswers: seq<int>
    var submitted: bool
    var score: nat

    ghost predicate Valid()
      reads this
    {
      && AnswersFit(questions, selectedAnswers)
      && (submitted ==> score == Score(questions, selectedAnswers))
    }

    /** `new Array(n).fill(-1)`, not submitted, score 0. */
    constructor (quiz: Quiz)
      ensures Valid() && questions == quiz.questions
      ensures selectedAnswers == seq(|quiz.questions|, _ => UNANSWERED)
      ensures !submitted && score == 0
    {
      questions := quiz.questions;
      selectedAnswers := seq(|quiz.questions|, _ => UNANSWERED);
      submitted := false;
      score := 0;
    }

    /** Indices come from the rendered questions and options. Once
        submitted, the answers no longer change. */
    method HandleOptionSelect(qIndex: nat, optionIndex: nat)
      requires Valid() && qIndex < |questions| && optionIndex < |questions[qIndex].options|
      modifies this
      ensures Valid()
      ensures old(submitted) ==> selectedAnswers == old(selectedAnswers)
      ensures !old(submitted) ==> selectedAnswers == old(selectedAnswers)[qIndex := optionIndex]
      ensures submitted == old(submitted) && score == old(score)
    {
      if submitted {
        return;
      }
      var newAnswers := selectedAnswers;
      newAnswers := newAnswers[qIndex := optionIndex];
      selectedAnswers := newAnswers;
    }

    method HandleSubmitQuiz()
      requires Valid()
      modifies this
      ensures Valid() && submitted
      ensures selectedAnswers == old(selectedAnswers)
      ensures score == Score(questions, selectedAnswers) && score <= |questions|
    {
      var newScore := CountScore(questions, selectedAnswers);
      ScoreBounds(questions, selectedAnswers);
      score := newScore;
      submitted := true;
    }

    /** What the submit area shows: the button (and whether it is enabled)
        before submission, the score afterwards. */
    method SubmitArea() returns (showButton: bool, buttonEnabled: bool, shownScore: Option<nat>)
      requires Valid()
      ensures showButton <==> !submitted
      ensures showButton ==> buttonEnabled == SubmitEnabled(selectedAnswers)
      ensures shownScore.Some? <==> submitted
      ensures shownScore.Some? ==> shownScore.value == Score(questions, selectedAnswers)
    {
      showButton := !submitted;
      buttonEnabled := UNANSWERED !in selectedAnswers;
      shownScore := if submitted then Some(score) else None;
    }
  }

  /** A worked example on any valid two-question quiz: submitting starts
      disabled, both questions are answered right, the quiz is submitted with a full score, and a later
      select changes nothing. */
  method QuizSession(quiz: Quiz)
    requires ValidQuiz(quiz) && |quiz.questions| == 2
    requires quiz.questions[0].correctIndex == 1 && quiz.questions[1].correctIndex == 0
    requires |quiz.questions[1].options| == 3
  {
    var sheet := new QuizSheet(quiz);
    assert !SubmitEnabled(sheet.selectedAnswers) by { assert sheet.selectedAnswers[0] == UNANSWERED; }
    sheet.HandleOptionSelect(0, 1);
    sheet.HandleOptionSelect(1, 0);
    assert sheet.selectedAnswers == [1, 0];
    sheet.HandleSubmitQuiz();
    assert sheet.score == 2;
    sheet.HandleOptionSelect(1, 1);
    assert sheet.selectedAnswers == [1, 0] && sheet.score == 2;
  }
}
