# Quiz session engine, modelled in Dafny

This project models the session-state engine of a live quiz server written in Go.
Users join a quiz over a persistent connection, submit answers, and receive a
leaderboard after every change. The model covers three layers:

- the in-memory quiz store (`Repository`);
- the quiz service (`Service`): join, answer, leaderboard, and the client's view of a quiz;
- the decisions of the connection handler (`Handler`): which envelopes one inbound
  message produces, and the leaderboard broadcast.

Each operation runs as one atomic step. `Domain` holds the records, and `Constants`
holds the message tags and the 10 points per correct answer. `Ranking` holds the
sort and the leaderboard invariant.

How the Go program maps onto Dafny:

- A quiz (`Domain.Quiz`) is a class, because the server updates its users map and
  its leaderboard in place. Its id and its questions are never written, so they
  are `const`.
- A user is a datatype value kept in the quiz's users map. The Go service mutates
  users through the map. The one `*User` it hands out is the pointer JoinQuiz
  returns, and the handler reads only its ID, right away
  (internal/handler/websocket_handler.go:83-87). So replacing the map entry
  behaves like writing through the pointer.
- The store (`Repository.QuizRepository`) holds a `map<string, Quiz>` of quiz objects.
- `Keyed()` says each quiz is stored under its own id. `Valid()` adds that every
  stored quiz keeps its own invariant: users are keyed by their id, and the
  leaderboard ranks them.
- A leaderboard ranks the users (`Domain.Ranks`) when it is a permutation of their
  (id, score) projections and its scores never increase. This is stated as a
  multiset equality plus sortedness.
- The order among equal scores is left open. In Go it comes from map iteration
  order and an unstable sort. The model's insertion sort produces one of the
  allowed orders, and nothing proved depends on which one.
- `time.Now()` becomes a `now` parameter. A connection becomes an opaque `ConnId`.
- A write to a connection becomes a `Frame` appended to `Handler.Transport.sent`.
  The frame records whether the write succeeded. Writes fail exactly on the
  connections in `Transport.failing`.
- One inbound read becomes an `Inbound` value. It is either a read failure, bytes
  that are not an envelope, or an envelope carrying its type and the outcome of
  decoding its payload as a join payload and as an answer payload.

## Model

| member | source | states |
|---|---|---|
| `Domain.Quiz.constructor` | internal/domain/entities.go:10-16 | A new quiz has the given id and questions, no users and an empty leaderboard, and satisfies the quiz invariant |
| `Repository.QuizRepository.constructor` | internal/repository/quiz_repository.go:16-20 | A new store is empty and valid |
| `Repository.QuizRepository.GetQuiz` | internal/repository/quiz_repository.go:23-32 | Returns the stored quiz when the id is present, and QuizNotFound with no quiz otherwise |
| `Repository.QuizRepository.SaveQuiz` | internal/repository/quiz_repository.go:34-39 | The map afterwards is the old map with the quiz's id now mapping to this quiz, overwriting any previous entry; every other id keeps its entry; keying by id is preserved |
| `Repository.QuizRepository.AddUserToQuiz` | internal/repository/quiz_repository.go:41-52 | Unknown quiz: QuizNotFound and no quiz changes. Known quiz: its users gain or replace the entry at user.ID, its leaderboard is untouched, every other quiz is unchanged |
| `Repository.QuizRepository.InitSampleData` | internal/repository/quiz_repository.go:55-94 | Afterwards a fresh quiz "bTaskee" with the three seed questions, no users and an empty leaderboard is stored; other ids are untouched |
| `Repository.SampleQuestionsWellFormed` | internal/repository/quiz_repository.go:58-88 | The seed questions have ids 1, 2, 3 and answers 1, 2, 0, with 4, 4 and 2 options; every answer is a valid option index and every time limit is 30 |
| `Ranking.Insert` | internal/service/quiz_service.go:133-136 | Inserting into a leaderboard sorted by non-increasing score keeps it sorted, and the result is the old entries plus the new one as a multiset |
| `Ranking.SortByScoreDesc` | internal/service/quiz_service.go:133-136 | The result is sorted by non-increasing score and is a permutation of the input |
| `Ranking.StandingsCount` | internal/service/quiz_service.go:125-131 | For users keyed by their id there is exactly one (id, score) projection per user |
| `Ranking.RankedLeaderboard` | internal/service/quiz_service.go:123-139 | A ranking leaderboard has one entry per user: the same length, every entry names a user with that user's score, every user appears, and no user id appears twice |
| `Service.FirstMatch` | internal/service/quiz_service.go:101-107 | The index of the first question whose id matches, with no earlier match; None exactly when no question has the id |
| `Service.ScanQuestions` | internal/service/quiz_service.go:101-107 | The in-order scan of the question list finds exactly the first match |
| `Service.Grade` | internal/service/quiz_service.go:101-113 | None iff no question has the id; otherwise correct iff the first matching question's answer equals the submitted answer |
| `Service.Rejoin` | internal/service/quiz_service.go:59-78 | A known name keeps its id, name, score and join time and gets the new connection and activity time; a new name adds a user with ID = Name = name, score 0 and both times = now; the key set gains only the name, other users are untouched, keying by id is preserved |
| `Service.Award` | internal/service/quiz_service.go:113-116 | A correct answer raises that user's score by exactly 10 and an incorrect one leaves it; nothing else about that user changes; other users and the key set are untouched |
| `Service.RepeatedCorrectAnswers` | internal/service/quiz_service.go:113-116 | n correct submissions by the same user add 10·n, because submissions are not deduplicated by question; other users are untouched |
| `Service.ReconnectKeepsRanking` | internal/service/quiz_service.go:59-66 | A reconnect changes no id and no score, so the unchanged leaderboard still ranks the users |
| `Service.QuizService.constructor` | internal/service/quiz_service.go:19-23 | The service is bound to the given store |
| `Service.QuizService.GetQuiz` | internal/service/quiz_service.go:26-32 | Same result as the store lookup: the stored quiz, or QuizNotFound |
| `Service.QuizService.GetQuizForClient` | internal/service/quiz_service.go:34-51 | Unknown id: QuizNotFound. Known id: same id, same number of questions in the same order, every answer -1, and each copy restored with the original answer equals the original; the stored quiz is not modified |
| `Service.QuizService.UpdateLeaderboard` | internal/service/quiz_service.go:123-139 | Only the leaderboard is written; afterwards it ranks the users (a permutation of their (id, score) projections, ordered by non-increasing score) and the quiz invariant holds |
| `Service.QuizService.JoinQuiz` | internal/service/quiz_service.go:53-85 | Unknown quiz: QuizNotFound and nothing changes. Known quiz: users become Rejoin(...), the returned user is the stored one, a reconnect leaves the leaderboard as it was, a new user gets a recomputed one; other quizzes are unchanged and the store stays valid |
| `Service.QuizService.SubmitAnswer` | internal/service/quiz_service.go:87-121 | Errors, checked in this order: unknown quiz, unknown user, unknown question; each changes nothing. Otherwise users become Award(...) with correctness from Grade, the returned score is the user's new score, and the leaderboard is recomputed; other quizzes are unchanged and the store stays valid |
| `Handler.Transport.Write` | internal/handler/websocket_handler.go:122-124 | One frame is appended for the write; it succeeds exactly when the connection is not failing |
| `Handler.Enriched` | internal/handler/websocket_handler.go:138-152 | The list is no longer than the leaderboard; each DTO belongs to an existing user, comes from a leaderboard entry with the same id and score, and takes name and timestamps from that user's record |
| `Handler.KeptIndices` | internal/handler/websocket_handler.go:139-143 | The positions of exactly the entries whose user exists, strictly increasing |
| `Handler.EnrichedFollowsLeaderboard` | internal/handler/websocket_handler.go:138-152 | The DTO list is the leaderboard filtered to known users, in leaderboard order: one DTO per kept entry, the k-th built from the k-th kept entry and its user's record |
| `Handler.EnrichedKeepsAll` | internal/handler/websocket_handler.go:138-152 | When every entry's user exists, the DTO list has one DTO per entry, position by position in leaderboard order |
| `Handler.EnrichedCoversKnown` | internal/handler/websocket_handler.go:139-151 | Every entry whose user exists has its DTO in the list, so only unknown users' entries are skipped |
| `Handler.BroadcastListsEveryUser` | internal/handler/websocket_handler.go:138-152 | For a valid quiz nothing is skipped: the DTO list has one DTO per user, in leaderboard order, with scores from the entries and the rest from the user records |
| `Handler.Fanout` | internal/handler/websocket_handler.go:155-157 | One frame per listed user, to that user's connection, all carrying the same message, each written iff its connection is not failing |
| `Handler.EveryUserOnce` | internal/handler/websocket_handler.go:155-157 | A broadcast over an enumeration of the users has exactly one frame per user, to that user's connection |
| `Handler.WebSocketHandler.constructor` | internal/handler/websocket_handler.go:21-32 | The handler is bound to the given service and transport |
| `Handler.WebSocketHandler.SendMessage` | internal/handler/websocket_handler.go:117-125 | Exactly one frame is appended, with the given type and payload; a failed write ends nothing |
| `Handler.WebSocketHandler.SendError` | internal/handler/websocket_handler.go:127-131 | Exactly one `error` frame carrying the given text is appended |
| `Handler.WebSocketHandler.LeaderboardDTOs` | internal/handler/websocket_handler.go:138-152 | The loop over the leaderboard builds exactly the Enriched list |
| `Handler.WebSocketHandler.BroadcastLeaderboard` | internal/handler/websocket_handler.go:133-158 | The frames appended are one `leaderboard` frame per user, to each user's connection, in some order of the users, all carrying the same DTO list; a failed write does not stop the rest |
| `Handler.WebSocketHandler.HandleJoin` | internal/handler/websocket_handler.go:68-90 | Unknown quiz: one `error` frame "Quiz not found", no broadcast, no state change. Otherwise the users become Rejoin(...), the connection is bound to the user, and the sender gets `joined` {quizId, userId} followed by one leaderboard frame per user |
| `Handler.WebSocketHandler.HandleAnswer` | internal/handler/websocket_handler.go:92-112 | Unanswerable (unknown quiz, user or question): one `error` frame "Failed to process answer", no broadcast, no state change. Otherwise the users become Award(...) and the sender gets `result` {correct, score} followed by one leaderboard frame per user |
| `Handler.WebSocketHandler.HandleMessage` | internal/handler/websocket_handler.go:50-114 | A read failure ends the loop, and everything else continues it. Undecodable envelopes or payloads and unknown types send nothing and change nothing. Joins and answers have the outcomes above, and only a successful join rebinds the connection |

## Left out

- Locks, goroutines and races are not modelled: the quiz-level and store-level `sync.RWMutex`, the goroutine per connection, the unlocked check-then-act in JoinQuiz, and the ordering of broadcasts across connections. Every operation is one atomic step, so the model cannot show lock discipline or interleavings.
- The WebSocket upgrade, `ReadMessage`, `WriteJSON` and JSON encoding and decoding are left out, because they are library calls. A read arrives already decoded as an `Inbound`. A write is a `Frame`, whose success is decided by `Transport.failing`.
- Logging is not modelled; a logged error leaves no trace in the model.
- HTTP routing, static files and process bootstrap are left out (`internal/handler/http_handler.go`, `cmd/server/main.go`). The browser client `static/js/quiz.js` is not part of this model.
- The seed questions' wording is replaced by placeholder strings. Their ids, answers, option counts and time limits are the server's.
- Service.QuizService.JoinQuiz: the new-user path reads the clock twice in Go, once for JoinedAt and once for LastActive. The model uses one `now` for both.
- Service.QuizService.JoinQuiz: the error branch after `AddUserToQuiz` cannot be taken in a sequential run, because the quiz was found a moment before. The model asserts success instead of modelling that branch.
- The error message texts (`quiz with ID %s not found` and similar) are not modelled. Errors are the `Domain.Error` variants, which carry the id. The handler sends only its two fixed texts, and those are modelled.
- Scores are unbounded integers. Go's 64-bit `int` overflow is not modelled; it would take over 10^17 correct answers.
- Service.QuizService.UpdateLeaderboard: it requires users keyed by their own id. Every operation of the server keeps that true. Without it, Go would still emit one entry per user, but the multiset statement would not describe those entries.
- Handler.WebSocketHandler.HandleMessage: the user the loop binds is kept only as an id, because the Go handler uses it for nothing else. The read loop itself, which calls this step until a read fails, is not modelled.
- The per-connection state machine's `Closed` state is represented only by `keepReading == false`.
- The Go code has no tie-break among equal scores: the order comes from map iteration plus an unstable `sort.Slice` (internal/service/quiz_service.go:127-136). The model leaves that order open.
