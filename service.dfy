/**
 * The quiz service: joining a quiz, grading an answer, recomputing the
 * leaderboard and the client's view of a quiz. Each operation runs as one
 * atomic step.
 */
module Service {
  import opened Wrappers
  import opened Domain
  import opened Ranking
  import opened Repository
  import Constants

  /** What a successful join returns: the joined user and its quiz. */
  datatype Joined = Joined(user: User, quiz: Quiz)

  /** What a successful submission returns: correctness, the new score and the quiz. */
  datatype Answered = Answered(correct: bool, score: int, quiz: Quiz)

  /** Index of the first question with id `id`, or None when no question has it. */
  function FirstMatch(qs: seq<Question>, id: int): (r: Option<nat>)
    ensures r.Some? ==> r.value < |qs| && qs[r.value].id == id && forall j :: 0 <= j < r.value ==> qs[j].id != id
    ensures r.None? ==> forall j :: 0 <= j < |qs| ==> qs[j].id != id
  {
    if qs == [] then None
    else if qs[0].id == id then Some(0)
    else match FirstMatch(qs[1..], id)
      case None => None
      case Some(i) => Some(i + 1)
  }

  /** Scans the questions in order for the first one with id `id`. */
  method ScanQuestions(qs: seq<Question>, id: int) returns (r: Option<nat>)
    ensures r == FirstMatch(qs, id)
  {
    var i := 0;
    while i < |qs|
      invariant 0 <= i <= |qs|
      invariant forall j :: 0 <= j < i ==> qs[j].id != id
    {
      if qs[i].id == id {
        return Some(i);
      }
      i := i + 1;
    }
    return None;
  }

  /**
   * Grades `answer` against the first question with id `questionId`:
   * None when there is no such question, otherwise whether the answer matches.
   */
  function Grade(qs: seq<Question>, questionId: int, answer: int): (r: Option<bool>)
    ensures r.None? <==> forall j :: 0 <= j < |qs| ==> qs[j].id != questionId
    ensures r.Some? ==> exists i :: 0 <= i < |qs| && qs[i].id == questionId
                                    && (forall j :: 0 <= j < i ==> qs[j].id != questionId)
                                    && r.value == (qs[i].answer == answer)
  {
    match FirstMatch(qs, questionId)
    case None => None
    case Some(i) => Some(qs[i].answer == answer)
  }

  /**
   * The users after `name` joins on `conn` at time `now`: an existing user is
   * reconnected, a new one is added with score 0.
   */
  function Rejoin(users: map<string, User>, name: string, conn: ConnId, now: Time): (r: map<string, User>)
    ensures r.Keys == users.Keys + {name}
    ensures forall k :: k in users && k != name ==> r[k] == users[k]
    ensures r[name].conn == conn && r[name].lastActive == now
    ensures name in users ==>
      && r[name].id == users[name].id && r[name].name == users[name].name
      && r[name].score == users[name].score && r[name].joinedAt == users[name].joinedAt
    ensures name !in users ==>
      r[name].id == name && r[name].name == name && r[name].score == 0 && r[name].joinedAt == now
    ensures KeyedById(users) ==> KeyedById(r)
  {
    if name in users then users[name := users[name].(conn := conn, lastActive := now)]
    else users[name := User(name, name, 0, conn, now, now)]
  }

  /** The users after `userId` answered, correctly or not. */
  function Award(users: map<string, User>, userId: string, correct: bool): (r: map<string, User>)
    requires userId in users
    ensures r.Keys == users.Keys
    ensures forall k :: k in users && k != userId ==> r[k] == users[k]
    ensures r[userId].score == users[userId].score + (if correct then Constants.PointsPerCorrectAnswer else 0)
    ensures r[userId] == users[userId].(score := r[userId].score)
    ensures KeyedById(users) ==> KeyedById(r)
  {
    if correct then
      users[userId := users[userId].(score := users[userId].score + Constants.PointsPerCorrectAnswer)]
    else users
  }

  /** `n` correct answers by `userId` in a row. */
  function AwardTimes(users: map<string, User>, userId: string, n: nat): map<string, User>
    requires userId in users
  {
    if n == 0 then users else Award(AwardTimes(users, userId, n - 1), userId, true)
  }

  /**
   * There is no deduplication by question: every correct submission, even of
   * the same question, adds the points again.
   */
  lemma {:induction false} RepeatedCorrectAnswers(users: map<string, User>, userId: string, n: nat)
    requires userId in users
    ensures userId in AwardTimes(users, userId, n)
    ensures AwardTimes(users, userId, n)[userId].score == users[userId].score + n * Constants.PointsPerCorrectAnswer
    ensures forall k :: k in users && k != userId ==> k in AwardTimes(users, userId, n) && AwardTimes(users, userId, n)[k] == users[k]
  {
    if n > 0 {
      RepeatedCorrectAnswers(users, userId, n - 1);
    }
  }

  /** A reconnect changes no id and no score, so a ranking stays a ranking. */
  lemma ReconnectKeepsRanking(lb: seq<LeaderboardEntry>, users: map<string, User>, name: string, conn: ConnId, now: Time)
    requires name in users && Ranks(lb, users)
    ensures Ranks(lb, Rejoin(users, name, conn, now))
  {
  }

  class QuizService {
    const repo: QuizRepository

    constructor (repo: QuizRepository)
      ensures this.repo == repo
    {
      this.repo := repo;
    }

    /** The quiz stored under `id`, or QuizNotFound. */
    method GetQuiz(id: string) returns (r: Result<Quiz, Error>)
      ensures id in repo.quizzes ==> r == Success(repo.quizzes[id])
      ensures id !in repo.quizzes ==> r == Failure(QuizNotFound(id))
    {
      r := repo.GetQuiz(id);
      if r.Failure? {
        r := Failure(QuizNotFound(id));
      }
    }

    /**
     * A copy of the quiz for clients: the same id and questions in the same
     * order, every answer hidden as -1.
     */
    method GetQuizForClient(id: string) returns (r: Result<QuizResponse, Error>)
      ensures id !in repo.quizzes ==> r == Failure(QuizNotFound(id))
      ensures id in repo.quizzes ==> r.Success? && r.value.id == repo.quizzes[id].id
      ensures id in repo.quizzes ==>
        var original := repo.quizzes[id].questions;
        && |r.value.questions| == |original|
        && forall i :: 0 <= i < |original| ==>
             r.value.questions[i].answer == -1
             && r.value.questions[i].(answer := original[i].answer) == original[i]
    {
      var found := repo.GetQuiz(id);
      if found.Failure? {
        return Failure(QuizNotFound(id));
      }
      var quiz := found.value;
      var questions := new Question[|quiz.questions|];
      for i := 0 to |quiz.questions|
        invariant forall j :: 0 <= j < i ==> questions[j] == quiz.questions[j].(answer := -1)
      {
        questions[i] := quiz.questions[i].(answer := -1);
      }
      return Success(QuizResponse(quiz.id, questions[..]));
    }

    /**
     * Rebuilds the leaderboard from the users: one (id, score) entry per user,
     * ordered by non-increasing score.
     */
    method UpdateLeaderboard(quiz: Quiz)
      requires KeyedById(quiz.users)
      modifies quiz`leaderboard
      ensures Ranks(quiz.leaderboard, quiz.users)
      ensures quiz.Valid()
    {
      var entries: seq<LeaderboardEntry> := [];
      var pending := quiz.users.Keys;
      while pending != {}
        invariant pending <= quiz.users.Keys
        invariant multiset(entries) == multiset(StandingsOf(quiz.users, quiz.users.Keys - pending))
        decreases |pending|
      {
        var k :| k in pending;
        var user := quiz.users[k];
        var e := LeaderboardEntry(user.id, user.score);
        ghost var done := quiz.users.Keys - pending;
        assert StandingsOf(quiz.users, done + {k}) == StandingsOf(quiz.users, done) + {e};
        assert e !in StandingsOf(quiz.users, done);
        entries := entries + [e];
        pending := pending - {k};
        assert quiz.users.Keys - pending == done + {k};
      }
      assert quiz.users.Keys - pending == quiz.users.Keys;
      quiz.leaderboard := SortByScoreDesc(entries);
    }

    /**
     * Joins `userName` to quiz `quizId` on connection `conn` at time `now`. A
     * name already present reconnects that user and keeps the leaderboard; a
     * new name adds a user with score 0 and recomputes the leaderboard.
     */
    method JoinQuiz(quizId: string, userName: string, conn: ConnId, now: Time) returns (r: Result<Joined, Error>)
      requires repo.Valid()
      modifies repo.quizzes.Values
      ensures repo.Valid()
      ensures quizId !in repo.quizzes ==> r == Failure(QuizNotFound(quizId))
      ensures quizId in repo.quizzes ==>
        var quiz := repo.quizzes[quizId];
        && quiz.users == Rejoin(old(quiz.users), userName, conn, now)
        && r == Success(Joined(quiz.users[userName], quiz))
        && (userName in old(quiz.users) ==> quiz.leaderboard == old(quiz.leaderboard))
      ensures forall q :: q in repo.quizzes.Values && (quizId !in repo.quizzes || q != repo.quizzes[quizId]) ==> unchanged(q)
    {
      var found := repo.GetQuiz(quizId);
      if found.Failure? {
        return Failure(found.error);
      }
      var quiz := found.value;
      if userName in quiz.users {
        var existing := quiz.users[userName];
        ReconnectKeepsRanking(quiz.leaderboard, quiz.users, userName, conn, now);
        quiz.users := quiz.users[userName := existing.(conn := conn, lastActive := now)];
        return Success(Joined(quiz.users[userName], quiz));
      }
      var user := User(userName, userName, 0, conn, now, now);
      var added := repo.AddUserToQuiz(quizId, user);
      assert added.Success?;
      UpdateLeaderboard(quiz);
      r := Success(Joined(user, quiz));
    }

    /**
     * Grades one answer. Errors, in this order: unknown quiz, unknown user,
     * unknown question; they change nothing. Otherwise a correct answer adds
     * the points to the user's score, the leaderboard is recomputed, and the
     * new score is returned.
     */
    method SubmitAnswer(p: AnswerPayload) returns (r: Result<Answered, Error>)
      requires repo.Valid()
      modifies repo.quizzes.Values
      ensures repo.Valid()
      ensures p.quizId !in repo.quizzes ==> r == Failure(QuizNotFound(p.quizId))
      ensures p.quizId in repo.quizzes && p.userId !in old(repo.quizzes[p.quizId].users) ==>
        r == Failure(UserNotFound(p.userId)) && unchanged(repo.quizzes[p.quizId])
      ensures p.quizId in repo.quizzes && p.userId in old(repo.quizzes[p.quizId].users) ==>
        var quiz := repo.quizzes[p.quizId];
        match Grade(quiz.questions, p.questionId, p.answer)
        case None => r == Failure(QuestionNotFound(p.questionId)) && unchanged(quiz)
        case Some(correct) =>
          && quiz.users == Award(old(quiz.users), p.userId, correct)
          && r == Success(Answered(correct, quiz.users[p.userId].score, quiz))
      ensures forall q :: q in repo.quizzes.Values && (p.quizId !in repo.quizzes || q != repo.quizzes[p.quizId]) ==> unchanged(q)
    {
      var found := repo.GetQuiz(p.quizId);
      if found.Failure? {
        return Failure(QuizNotFound(p.quizId));
      }
      var quiz := found.value;
      if p.userId !in quiz.users {
        return Failure(UserNotFound(p.userId));
      }
      var index := ScanQuestions(quiz.questions, p.questionId);
      if index.None? {
        return Failure(QuestionNotFound(p.questionId));
      }
      var correct := quiz.questions[index.value].answer == p.answer;
      if correct {
        var user := quiz.users[p.userId];
        quiz.users := quiz.users[p.userId := user.(score := user.score + Constants.PointsPerCorrectAnswer)];
      }
      UpdateLeaderboard(quiz);
      r := Success(Answered(correct, quiz.users[p.userId].score, quiz));
    }
  }
}
