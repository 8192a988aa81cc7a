/**
 * The records of the quiz server: questions, users, leaderboard entries, the
 * payloads exchanged on a connection, and the Quiz entity whose users and
 * leaderboard are updated in place.
 */
module Domain {
  /** An opaque handle to a client connection. */
  type ConnId = nat
  /** A clock reading. */
  type Time = int

  datatype Question = Question(id: int, text: string, options: seq<string>, answer: int, timeLimit: int)

  datatype User = User(id: string, name: string, score: int, conn: ConnId, joinedAt: Time, lastActive: Time)

  datatype LeaderboardEntry = LeaderboardEntry(userId: string, score: int)

  // Inbound payloads
  datatype AnswerPayload = AnswerPayload(quizId: string, userId: string, questionId: int, answer: int)
  datatype JoinPayload = JoinPayload(quizId: string, userName: string)

  /** What a client may see of a quiz. */
  datatype QuizResponse = QuizResponse(id: string, questions: seq<Question>)

  datatype LeaderboardEntryDTO = LeaderboardEntryDTO(
    userId: string, score: int, userName: string, joinedAt: Time, lastActive: Time)

  // Outbound payloads and the envelope that carries them
  datatype Payload =
    | JoinedPayload(quizId: string, userId: string)
    | ResultPayload(correct: bool, score: int)
    | ErrorPayload(message: string)
    | LeaderboardPayload(entries: seq<LeaderboardEntryDTO>)

  datatype Message = Message(msgType: string, payload: Payload)

  /** The errors the store and the service return. */
  datatype Error =
    | QuizNotFound(quizId: string)
    | UserNotFound(userId: string)
    | QuestionNotFound(questionId: int)

  /** Every user is stored under its own id. */
  predicate KeyedById(users: map<string, User>) {
    forall k :: k in users ==> users[k].id == k
  }

  /** The (id, score) projections of the users stored under the keys in `keys`. */
  ghost function StandingsOf(users: map<string, User>, keys: set<string>): set<LeaderboardEntry> {
    set k | k in keys && k in users :: LeaderboardEntry(users[k].id, users[k].score)
  }

  /** The (id, score) projection of every user. */
  ghost function Standings(users: map<string, User>): set<LeaderboardEntry> {
    StandingsOf(users, users.Keys)
  }

  /** Scores never increase along the sequence. */
  predicate SortedByScore(lb: seq<LeaderboardEntry>) {
    forall i, j :: 0 <= i < j < |lb| ==> lb[i].score >= lb[j].score
  }

  /**
   * `lb` is a leaderboard of `users`: a permutation of their (id, score)
   * projections, ordered by non-increasing score. The order among equal
   * scores is left open.
   */
  ghost predicate Ranks(lb: seq<LeaderboardEntry>, users: map<string, User>) {
    SortedByScore(lb) && multiset(lb) == multiset(Standings(users))
  }

  /** One quiz: fixed questions, joined users and their leaderboard. */
  class Quiz {
    const id: string
    const questions: seq<Question>
    var users: map<string, User>
    var leaderboard: seq<LeaderboardEntry>

    /** Users are keyed by their id and the leaderboard ranks them. */
    ghost predicate Valid()
      reads this
    {
      KeyedById(users) && Ranks(leaderboard, users)
    }

    constructor (id: string, questions: seq<Question>)
      ensures this.id == id && this.questions == questions
      ensures users == map[] && leaderboard == []
      ensures Valid()
    {
      this.id := id;
      this.questions := questions;
      users := map[];
      leaderboard := [];
    }
  }
}
