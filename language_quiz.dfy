/**
  The ten-question African language quiz: the question table, the quiz state
  machine driven by the option, next, restart and start buttons, and the
  score message and colour shown on the results screen.
 */
module LanguageQuiz {
  import opened JsValues

  datatype QuizQuestion = QuizQuestion(id: nat, question: string, options: seq<string>, correctAnswer: int)

  const QuizQuestions: seq<QuizQuestion> := [
    QuizQuestion(1, "Which language is the most widely spoken in East Africa?",
      ["Zulu", "Swahili", "Amharic", "Lingala"], 1),
    QuizQuestion(2, "Which of these countries does NOT have Lingala as one of its major languages?",
      ["Democratic Republic of Congo", "Republic of Congo", "Angola", "Kenya"], 3),
    QuizQuestion(3, "What is the official language of Rwanda?",
      ["French", "English", "Kinyarwanda", "Swahili"], 2),
    QuizQuestion(4, "Which African language has the most native speakers?",
      ["Swahili", "Hausa", "Yoruba", "Arabic"], 3),
    QuizQuestion(5, "Chichewa is the official language of which country?",
      ["Zambia", "Malawi", "Zimbabwe", "Mozambique"], 1),
    QuizQuestion(6, "Which language family do most languages in Central and Southern Africa belong to?",
      ["Niger-Congo", "Afro-Asiatic", "Nilo-Saharan", "Khoisan"], 0),
    QuizQuestion(7, "Which language is known for its distinctive 'click' sounds?",
      ["Swahili", "Yoruba", "Xhosa", "Hausa"], 2),
    QuizQuestion(8, "Which of these is NOT one of the major languages spoken in Nigeria?",
      ["Hausa", "Yoruba", "Igbo", "Swahili"], 3),
    QuizQuestion(9, "Approximately how many indigenous languages are spoken across Africa?",
      ["Around 500", "Around 1,000", "Around 2,000", "Around 3,000"], 2),
    QuizQuestion(10, "Which North African country has Berber as an official language alongside Arabic?",
      ["Egypt", "Libya", "Morocco", "Tunisia"], 2)
  ]

  /** `quizQuestions.length` */
  const N: nat := |QuizQuestions|

  /** A question offers four options and its correct answer indexes one of them. */
  predicate WellFormed(q: QuizQuestion)
  {
    |q.options| == 4 && 0 <= q.correctAnswer < |q.options|
  }

  lemma QuestionsWellFormed()
    ensures N == 10
    ensures forall i :: 0 <= i < N ==> WellFormed(QuizQuestions[i]) && QuizQuestions[i].id == i + 1
  {
  }

  const ScoreMessages: seq<string> := [
    "Excellent! You're an African language expert!",
    "Great job! You have strong knowledge of African languages.",
    "Good effort! You have a basic understanding of African languages.",
    "Thanks for taking the quiz! Learn more about African languages with Transluga."
  ]

  const ScoreColors: seq<string> := ["text-green-600", "text-blue-600", "text-yellow-600", "text-red-600"]

  /**
    Reference definition of the result tier: the number of the thresholds
    90%, 70% and 50% that the score percentage `score / N * 100` falls short of,
    compared exactly as `score * 100` against `threshold * N`.
   */
  function Tier(score: int): (t: nat)
    ensures t < 4
  {
    (if score * 100 < 90 * N then 1 else 0)
    + (if score * 100 < 70 * N then 1 else 0)
    + (if score * 100 < 50 * N then 1 else 0)
  }

  /** A higher score never gives a lower tier. */
  lemma TierMonotone(s1: int, s2: int)
    requires s1 <= s2
    ensures Tier(s2) <= Tier(s1)
  {
  }

  /** `getScoreMessage`: the message of the score's tier. */
  function ScoreMessage(score: int): (m: string)
    ensures m == ScoreMessages[Tier(score)]
  {
    if score * 100 >= 90 * N then
      "Excellent! You're an African language expert!"
    else if score * 100 >= 70 * N then
      "Great job! You have strong knowledge of African languages."
    else if score * 100 >= 50 * N then
      "Good effort! You have a basic understanding of African languages."
    else
      "Thanks for taking the quiz! Learn more about African languages with Transluga."
  }

  /** `getScoreColor`: the colour of the score's tier, the same tier as the message. */
  function ScoreColor(score: int): (c: string)
    ensures c == ScoreColors[Tier(score)]
  {
    if score * 100 >= 90 * N then "text-green-600"
    else if score * 100 >= 70 * N then "text-blue-600"
    else if score * 100 >= 50 * N then "text-yellow-600"
    else "text-red-600"
  }

  /** Message and colour always name the same tier. */
  lemma MessageAndColorAgree(score: int, k: nat)
    requires k < 4
    ensures ScoreMessage(score) == ScoreMessages[k] <==> ScoreColor(score) == ScoreColors[k]
  {
  }

  /** The quiz component's state. */
  class Quiz {
    var currentQuestion: nat
    var showAnswer: bool
    var selectedOption: Option<int>
    var score: nat
    var quizCompleted: bool
    var quizStarted: bool

    /** Questions answered so far: those before the current one, plus the current one once revealed. */
    function Answered(): nat
      reads this
    {
      currentQuestion + (if showAnswer then 1 else 0)
    }

    ghost predicate Valid()
      reads this
    {
      && currentQuestion < N
      && score <= Answered() <= N
      && (selectedOption.Some? <==> showAnswer)
      && (quizCompleted ==> showAnswer && currentQuestion == N - 1)
    }

    constructor ()
      ensures Valid()
      ensures currentQuestion == 0 && !showAnswer && selectedOption == None && score == 0
      ensures !quizCompleted && !quizStarted
    {
      currentQuestion := 0;
      showAnswer := false;
      selectedOption := None;
      score := 0;
      quizCompleted := false;
      quizStarted := false;
    }

    /** `handleOptionSelect`: ignored once the answer is shown; otherwise records and scores the choice. */
    method SelectOption(optionIndex: int)
      requires Valid()
      modifies this
      ensures Valid()
      ensures old(showAnswer) ==> unchanged(this)
      ensures !old(showAnswer) ==>
        && showAnswer && selectedOption == Some(optionIndex)
        && score == old(score) + (if optionIndex == QuizQuestions[currentQuestion].correctAnswer then 1 else 0)
        && currentQuestion == old(currentQuestion)
        && quizCompleted == old(quizCompleted) && quizStarted == old(quizStarted)
    {
      if showAnswer {
        return;
      }
      selectedOption := Some(optionIndex);
      showAnswer := true;
      if optionIndex == QuizQuestions[currentQuestion].correctAnswer {
        score := score + 1;
      }
    }

    /**
      `handleNextQuestion`, reachable only through the button shown after the
      answer is revealed: advances to the next question, or completes the quiz
      on the last one.
     */
    method NextQuestion()
      requires Valid() && showAnswer
      modifies this
      ensures Valid()
      ensures score == old(score) && quizStarted == old(quizStarted)
      ensures old(currentQuestion) < N - 1 ==>
        && currentQuestion == old(currentQuestion) + 1
        && selectedOption == None && !showAnswer
        && quizCompleted == old(quizCompleted)
      ensures old(currentQuestion) == N - 1 ==>
        && quizCompleted
        && currentQuestion == old(currentQuestion)
        && selectedOption == old(selectedOption) && showAnswer
    {
      if currentQuestion < N - 1 {
        currentQuestion := currentQuestion + 1;
        selectedOption := None;
        showAnswer := false;
      } else {
        quizCompleted := true;
      }
    }

    /** `restartQuiz`: back to the first question with no score; the quiz stays started. */
    method Restart()
      requires Valid()
      modifies this
      ensures Valid()
      ensures currentQuestion == 0 && selectedOption == None && !showAnswer && score == 0 && !quizCompleted
      ensures quizStarted == old(quizStarted)
    {
      currentQuestion := 0;
      selectedOption := None;
      showAnswer := false;
      score := 0;
      quizCompleted := false;
    }

    /** `startQuiz` */
    method Start()
      requires Valid()
      modifies this
      ensures Valid()
      ensures quizStarted
      ensures currentQuestion == old(currentQuestion) && selectedOption == old(selectedOption)
      ensures showAnswer == old(showAnswer) && score == old(score) && quizCompleted == old(quizCompleted)
    {
      quizStarted := true;
    }
  }

  /** A completed quiz has answered every question, and the score it shows never exceeds their number. */
  method FinalScore(quiz: Quiz) returns (s: nat)
    requires quiz.Valid() && quiz.quizCompleted
    ensures quiz.Answered() == N
    ensures s == quiz.score && s <= N
  {
    s := quiz.score;
  }
}
