/** The in-memory quiz store: a map from quiz id to the quiz stored under it. */
module Repository {
  import opened Wrappers
  import opened Domain
  import Constants

  /** Id of the quiz installed by InitSampleData. */
  const SampleQuizId: string := "bTaskee"

  /**
   * The seed questions. Only their ids, answers, option counts and time
   * limits are the server's; the wording is a placeholder.
   */
  function SampleQuestions(): seq<Question> {
    [ Question(1, "question 1", ["option A", "option B", "option C", "option D"], 1, Constants.DefaultTimeLimit),
      Question(2, "question 2", ["option A", "option B", "option C", "option D"], 2, Constants.DefaultTimeLimit),
      Question(3, "question 3", ["option A", "option B"], 0, Constants.DefaultTimeLimit) ]
  }

  class QuizRepository {
    var quizzes: map<string, Quiz>

    /** Every quiz is stored under its own id. */
    ghost predicate Keyed()
      reads this
    {
      forall id :: id in quizzes ==> quizzes[id].id == id
    }

    /** Keyed, and every stored quiz keeps its own invariant. */
    ghost predicate Valid()
      reads this, quizzes.Values
    {
      Keyed() && forall id :: id in quizzes ==> quizzes[id].Valid()
    }

    constructor ()
      ensures quizzes == map[] && Valid()
    {
      quizzes := map[];
    }

    /** The quiz stored under `id`, or QuizNotFound. */
    method GetQuiz(id: string) returns (r: Result<Quiz, Error>)
      ensures id in quizzes ==> r == Success(quizzes[id])
      ensures id !in quizzes ==> r == Failure(QuizNotFound(id))
    {
      if id in quizzes {
        r := Success(quizzes[id]);
      } else {
        r := Failure(QuizNotFound(id));
      }
    }

    /** Stores `quiz` under its id, replacing any quiz stored there before. */
    method SaveQuiz(quiz: Quiz)
      modifies this
      ensures quizzes == old(quizzes)[quiz.id := quiz]
      ensures old(Keyed()) ==> Keyed()
      ensures old(Valid()) && quiz.Valid() ==> Valid()
    {
      quizzes := quizzes[quiz.id := quiz];
    }

    /**
     * Puts `user` into the users of the quiz stored under `quizId`, replacing
     * a user with the same id; the leaderboard is not touched.
     */
    method AddUserToQuiz(quizId: string, user: User) returns (r: Result<Quiz, Error>)
      modifies quizzes.Values
      ensures quizId !in quizzes ==> r == Failure(QuizNotFound(quizId))
      ensures quizId in quizzes ==>
        && r == Success(quizzes[quizId])
        && quizzes[quizId].users == old(quizzes[quizId].users)[user.id := user]
        && quizzes[quizId].leaderboard == old(quizzes[quizId].leaderboard)
      ensures forall q :: q in quizzes.Values && (quizId !in quizzes || q != quizzes[quizId]) ==> unchanged(q)
    {
      r := GetQuiz(quizId);
      if r.Success? {
        var quiz := r.value;
        quiz.users := quiz.users[user.id := user];
      }
    }

    /** Installs the sample quiz: three questions, no users, an empty leaderboard. */
    method InitSampleData()
      modifies this
      ensures SampleQuizId in quizzes && fresh(quizzes[SampleQuizId])
      ensures quizzes == old(quizzes)[SampleQuizId := quizzes[SampleQuizId]]
      ensures quizzes[SampleQuizId].questions == SampleQuestions()
      ensures quizzes[SampleQuizId].users == map[] && quizzes[SampleQuizId].leaderboard == []
      ensures old(Valid()) ==> Valid()
    {
      var quiz := new Quiz(SampleQuizId, SampleQuestions());
      SaveQuiz(quiz);
    }
  }

  /**
   * The seed quiz has questions 1, 2, 3 with answers 1, 2, 0, each a valid
   * index into its 4, 4 and 2 options, each with the default time limit.
   */
  lemma SampleQuestionsWellFormed()
    ensures |SampleQuestions()| == 3
    ensures forall i :: 0 <= i < 3 ==> SampleQuestions()[i].id == i + 1
    ensures SampleQuestions()[0].answer == 1 && SampleQuestions()[1].answer == 2 && SampleQuestions()[2].answer == 0
    ensures |SampleQuestions()[0].options| == 4 && |SampleQuestions()[1].options| == 4 && |SampleQuestions()[2].options| == 2
    ensures forall q :: q in SampleQuestions() ==> 0 <= q.answer < |q.options| && q.timeLimit == Constants.DefaultTimeLimit
  {
  }
}
