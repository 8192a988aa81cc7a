/** The message tags and the fixed numbers of the quiz server. */
module Constants {
  // Message types carried in the `type` field of an envelope
  const MessageTypeJoin: string := "join"
  const MessageTypeAnswer: string := "answer"
  const MessageTypeJoined: string := "joined"
  const MessageTypeResult: string := "result"
  const MessageTypeError: string := "error"
  const MessageTypeLeaderboard: string := "leaderboard"

  /** Points added to a user's score for every correct answer. */
  const PointsPerCorrectAnswer: int := 10
  /** Nominal time limit of a question, in seconds (informational only). */
  const DefaultTimeLimit: int := 30
}
