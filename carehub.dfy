// The care hub screen: the medication list with its "taken today" toggle and
// adherence percentage, and the four-question first-aid quiz.

module CareHub {
  import opened Optional

  datatype Medication = Medication(
    id: string, name: string, dosage: string, frequency: string,
    takenToday: bool, reminders: bool)

  /** The medications the screen starts with. */
  const SeedMedications: seq<Medication> := [
    Medication("1", "Lisinopril", "10mg", "Daily", false, true),
    Medication("2", "Metformin", "500mg", "Twice daily", true, false)
  ]

  /** `handleTakeMedication`: flips `takenToday` on every medication with the
      given id and leaves everything else as it was. */
  function ToggleTaken(meds: seq<Medication>, id: string): (r: seq<Medication>)
    ensures |r| == |meds|
    ensures forall i | 0 <= i < |meds| :: r[i].(takenToday := meds[i].takenToday) == meds[i]
    ensures forall i | 0 <= i < |meds| :: r[i].takenToday == (meds[i].takenToday != (meds[i].id == id))
  {
    if meds == [] then []
    else
      var m := meds[0];
      [if m.id == id then m.(takenToday := !m.takenToday) else m] + ToggleTaken(meds[1..], id)
  }

  /** Toggling the same id twice gives back the original list. */
  lemma ToggleTakenTwice(meds: seq<Medication>, id: string)
    ensures ToggleTaken(ToggleTaken(meds, id), id) == meds
  {
  }

  /** An id that names no medication changes nothing. */
  lemma ToggleTakenUnknownId(meds: seq<Medication>, id: string)
    requires forall i | 0 <= i < |meds| :: meds[i].id != id
    ensures ToggleTaken(meds, id) == meds
  {
  }

  /** Number of medications marked taken today. */
  function CountTaken(meds: seq<Medication>): (n: nat)
    ensures n <= |meds|
    ensures n == 0 <==> forall i | 0 <= i < |meds| :: !meds[i].takenToday
    ensures n == |meds| <==> forall i | 0 <= i < |meds| :: meds[i].takenToday
  {
    if meds == [] then 0
    else (if meds[0].takenToday then 1 else 0) + CountTaken(meds[1..])
  }

  /** `pct` is 100 * taken / total rounded half up, the way `Math.round` rounds:
      pct - 1/2 <= 100 * taken / total < pct + 1/2. */
  ghost predicate RoundsHalfUp(taken: int, total: int, pct: int)
    requires total > 0
  {
    2 * pct * total - total <= 200 * taken < 2 * pct * total + total
  }

  /** `medicationAdherence`: the percentage of medications taken today, 0 for an empty list. */
  function Adherence(meds: seq<Medication>): (pct: int)
    ensures meds == [] ==> pct == 0
    ensures meds != [] ==> RoundsHalfUp(CountTaken(meds), |meds|, pct)
    ensures 0 <= pct <= 100
    ensures CountTaken(meds) == 0 ==> pct == 0
    ensures meds != [] && CountTaken(meds) == |meds| ==> pct == 100
  {
    if meds == [] then 0 else RoundedPercent(CountTaken(meds), |meds|)
  }

  /** `Math.round(taken / total * 100)` on integers: (200 * taken + total) div (2 * total). */
  function RoundedPercent(taken: nat, total: int): (q: int)
    requires 0 < total && taken <= total
    ensures RoundsHalfUp(taken, total, q) && 0 <= q <= 100
    ensures taken == 0 ==> q == 0
    ensures taken == total ==> q == 100
  {
    DivBounds(200 * taken + total, 2 * total);
    QuotientRounds(taken, total, (200 * taken + total) / (2 * total));
    (200 * taken + total) / (2 * total)
  }

  lemma DivBounds(n: int, d: int)
    requires 0 < d
    ensures d * (n / d) <= n < d * (n / d) + d
  {
  }

  /** Any q with 2 * total * q <= 200 * taken + total < 2 * total * (q + 1) is the rounded percentage. */
  lemma QuotientRounds(taken: nat, total: int, q: int)
    requires 0 < total && taken <= total
    requires 2 * total * q <= 200 * taken + total < 2 * total * q + 2 * total
    ensures RoundsHalfUp(taken, total, q) && 0 <= q <= 100
    ensures taken == 0 ==> q == 0
    ensures taken == total ==> q == 100
  {
  }

  // ---------------------------------------------------------------------------
  // First-aid quiz

  datatype QuizQuestion = QuizQuestion(question: string, options: seq<string>, correctAnswer: string)

  const QuizQuestions: seq<QuizQuestion> := [
    QuizQuestion("What is the first step in any first-aid situation (DRSABCD)?",
      ["Check Airway", "Check for Danger", "Send for help", "Check for Response"], "Check for Danger"),
    QuizQuestion("For an adult, what is the correct ratio of chest compressions to rescue breaths for CPR?",
      ["15:2", "30:2", "10:1", "5:1"], "30:2"),
    QuizQuestion("How should you treat a minor burn?",
      ["Apply ice directly", "Cover with a blanket", "Run under cool water for 20 mins", "Apply butter or oil"],
      "Run under cool water for 20 mins"),
    QuizQuestion("What is the primary action to control severe bleeding?",
      ["Apply a tourniquet", "Elevate the limb", "Apply direct, firm pressure", "Give the person water"],
      "Apply direct, firm pressure")
  ]

  /** The quiz part of the screen state. */
  datatype QuizState = QuizState(index: int, score: int, selected: Option<string>, showResult: bool)

  /** An answer counts as chosen when the selection is truthy: present and not "". */
  predicate Answered(s: QuizState) {
    s.selected.Some? && s.selected.value != ""
  }

  function InitialQuiz(): QuizState {
    QuizState(0, 0, None, false)
  }

  /** The index stays on a question, and the score is at most the number of
      questions answered so far. */
  predicate QuizInv(s: QuizState) {
    && 0 <= s.index < |QuizQuestions|
    && 0 <= s.score <= s.index + (if Answered(s) then 1 else 0)
  }

  /** `handleAnswerSelect`: the first answer to a question is final and scores
      one point when it is the question's correct answer. */
  function Select(s: QuizState, option: string): (t: QuizState)
    requires 0 <= s.index < |QuizQuestions|
    ensures Answered(s) ==> t == s
    ensures !Answered(s) ==> t.selected == Some(option) && t.index == s.index && t.showResult == s.showResult
    ensures !Answered(s) ==> t.score == s.score + (if option == QuizQuestions[s.index].correctAnswer then 1 else 0)
  {
    if Answered(s) then s
    else
      var t := s.(selected := Some(option));
      if option == QuizQuestions[s.index].correctAnswer then t.(score := s.score + 1) else t
  }

  /** `handleNextQuestion`: move to the next question with no selection, or,
      on the last question, show the result and keep everything else. */
  function Advance(s: QuizState): (t: QuizState)
    ensures s.index < |QuizQuestions| - 1 ==> t == QuizState(s.index + 1, s.score, None, s.showResult)
    ensures s.index >= |QuizQuestions| - 1 ==> t == s.(showResult := true)
  {
    if s.index < |QuizQuestions| - 1 then s.(index := s.index + 1, selected := None)
    else s.(showResult := true)
  }

  /** `restartQuiz`: index, score, selection and result flag all go back to their start values. */
  function Restart(s: QuizState): (t: QuizState)
    ensures t.index == 0 && t.score == 0 && t.selected == None && !t.showResult
    ensures t == InitialQuiz()
  {
    QuizState(0, 0, None, false)
  }

  lemma InitialQuizInv()
    ensures QuizInv(InitialQuiz())
  {
  }

  /** Every handler keeps the quiz invariant, so the index never leaves [0, 3]
      and the score never exceeds 4. */
  lemma QuizInvPreserved(s: QuizState, option: string)
    requires QuizInv(s)
    ensures QuizInv(Select(s, option))
    ensures QuizInv(Advance(s))
    ensures QuizInv(Restart(s))
    ensures s.score <= |QuizQuestions|
  {
  }

  /** Answering question `i + k` with `answers[k]`: how many of them are right. */
  function CountCorrect(i: nat, answers: seq<string>): (n: nat)
    requires i + |answers| <= |QuizQuestions|
    ensures n <= |answers|
    decreases answers
  {
    if answers == [] then 0
    else (if answers[0] == QuizQuestions[i].correctAnswer then 1 else 0) + CountCorrect(i + 1, answers[1..])
  }

  /** Taking the quiz: for each answer, select it and advance. */
  function Play(s: QuizState, answers: seq<string>): (t: QuizState)
    requires 0 <= s.index < |QuizQuestions|
    ensures 0 <= t.index < |QuizQuestions|
    decreases answers
  {
    if answers == [] then s
    else Play(Advance(Select(s, answers[0])), answers[1..])
  }

  /** Playing from an unanswered question to the end shows the result, and the
      score grows by exactly the number of correct answers. */
  lemma {:induction false} PlayScores(s: QuizState, answers: seq<string>)
    requires 0 <= s.index && !Answered(s) && !s.showResult
    requires s.index + |answers| == |QuizQuestions| && answers != []
    ensures Play(s, answers).score == s.score + CountCorrect(s.index, answers)
    ensures Play(s, answers).showResult
    ensures Play(s, answers).index == |QuizQuestions| - 1
    decreases answers
  {
    var t := Advance(Select(s, answers[0]));
    if |answers| > 1 {
      PlayScores(t, answers[1..]);
    }
  }

  /** The four correct options in question order. */
  function CorrectAnswers(): (answers: seq<string>)
    ensures |answers| == |QuizQuestions|
    ensures forall k | 0 <= k < |answers| :: answers[k] == QuizQuestions[k].correctAnswer
  {
    seq(|QuizQuestions|, k requires 0 <= k < |QuizQuestions| => QuizQuestions[k].correctAnswer)
  }

  /** Choosing the correct option for every question scores 4. */
  lemma AllCorrectScoresFour()
    ensures Play(InitialQuiz(), CorrectAnswers()).score == 4
    ensures Play(InitialQuiz(), CorrectAnswers()).showResult
  {
  }

  /** Choosing a wrong option for every question scores 0. */
  lemma {:induction false} AllWrongScoresZero(answers: seq<string>)
    requires |answers| == |QuizQuestions|
    requires forall k | 0 <= k < |answers| :: answers[k] != QuizQuestions[k].correctAnswer
    ensures Play(InitialQuiz(), answers).score == 0
    ensures Play(InitialQuiz(), answers).showResult
  {
    PlayScores(InitialQuiz(), answers);
    NoCorrectCountsZero(0, answers);
  }

  lemma {:induction false} NoCorrectCountsZero(i: nat, answers: seq<string>)
    requires i + |answers| <= |QuizQuestions|
    requires forall k | 0 <= k < |answers| :: answers[k] != QuizQuestions[i + k].correctAnswer
    ensures CountCorrect(i, answers) == 0
    decreases answers
  {
    if answers != [] {
      NoCorrectCountsZero(i + 1, answers[1..]);
    }
  }

  // ---------------------------------------------------------------------------
  // The screen's state and its handlers

  class CareHubScreen {
    var medications: seq<Medication>
    var currentQuestionIndex: int
    var score: int
    var selectedAnswer: Option<string>
    var showResult: bool

    function Quiz(): QuizState
      reads this
    {
      QuizState(currentQuestionIndex, score, selectedAnswer, showResult)
    }

    predicate Valid()
      reads this
    {
      QuizInv(Quiz())
    }

    /** `medicationAdherence`, recomputed from the current list. */
    function MedicationAdherence(): (pct: int)
      reads this
      ensures 0 <= pct <= 100
    {
      Adherence(medications)
    }

    constructor ()
      ensures Valid()
      ensures medications == SeedMedications && Quiz() == InitialQuiz()
    {
      medications := SeedMedications;
      currentQuestionIndex, score, selectedAnswer, showResult := 0, 0, None, false;
    }

    method TakeMedication(id: string)
      modifies this`medications
      ensures medications == ToggleTaken(old(medications), id)
    {
      medications := ToggleTaken(medications, id);
    }

    method AnswerSelect(option: string)
      requires Valid()
      modifies this`score, this`selectedAnswer
      ensures Valid()
      ensures Quiz() == Select(old(Quiz()), option)
    {
      if selectedAnswer.Some? && selectedAnswer.value != "" {
        return;
      }
      selectedAnswer := Some(option);
      if option == QuizQuestions[currentQuestionIndex].correctAnswer {
        score := score + 1;
      }
      QuizInvPreserved(old(Quiz()), option);
    }

    method NextQuestion()
      requires Valid()
      modifies this`currentQuestionIndex, this`selectedAnswer, this`showResult
      ensures Valid()
      ensures Quiz() == Advance(old(Quiz()))
    {
      if currentQuestionIndex < |QuizQuestions| - 1 {
        currentQuestionIndex := currentQuestionIndex + 1;
        selectedAnswer := None;
      } else {
        showResult := true;
      }
    }

    method RestartQuiz()
      modifies this`currentQuestionIndex, this`score, this`selectedAnswer, this`showResult
      ensures Valid()
      ensures Quiz() == Restart(old(Quiz()))
    {
      currentQuestionIndex := 0;
      score := 0;
      selectedAnswer := None;
      showResult := false;
    }
  }
}
