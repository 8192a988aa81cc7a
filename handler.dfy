/**
 * The connection handler's decisions: which envelopes one decoded inbound
 * message produces, and the leaderboard broadcast to every user of a quiz.
 * Writes go to a Transport that records them in order.
 */
module Handler {
  import opened Wrappers
  import opened Domain
  import opened Ranking
  import opened Repository
  import opened Service
  import Constants

  /** One attempted write: where it went, what it carried, and whether it succeeded. */
  datatype Frame = Frame(conn: ConnId, message: Message, written: bool)

  /**
   * One read from a connection: a read failure, bytes that are not an
   * envelope, or an envelope whose payload, decoded as a join or as an answer
   * payload, may each fail.
   */
  datatype Inbound =
    | ReadFailed
    | Undecodable
    | Envelope(msgType: string, asJoin: Option<JoinPayload>, asAnswer: Option<AnswerPayload>)

  /** Error text sent when a join fails. */
  const JoinFailedMessage: string := "Quiz not found"
  /** Error text sent when an answer fails. */
  const AnswerFailedMessage: string := "Failed to process answer"

  /** An inbound message that is dispatched as a join. */
  predicate IsJoin(inbound: Inbound) {
    inbound.Envelope? && inbound.msgType == Constants.MessageTypeJoin && inbound.asJoin.Some?
  }

  /** An inbound message that is dispatched as an answer. */
  predicate IsAnswer(inbound: Inbound) {
    inbound.Envelope? && inbound.msgType == Constants.MessageTypeAnswer && inbound.asAnswer.Some?
  }

  /** The connections, seen from the server: every write in order, and which connections fail writes. */
  class Transport {
    var sent: seq<Frame>
    var failing: set<ConnId>

    constructor (failing: set<ConnId>)
      ensures sent == [] && this.failing == failing
    {
      sent := [];
      this.failing := failing;
    }

    /** Writes `m` to `conn`; the write fails exactly when `conn` is failing. */
    method Write(conn: ConnId, m: Message) returns (ok: bool)
      modifies this`sent
      ensures ok == (conn !in failing)
      ensures sent == old(sent) + [Frame(conn, m, ok)]
    {
      ok := conn !in failing;
      sent := sent + [Frame(conn, m, ok)];
    }
  }

  /** The DTOs of the leaderboard entries whose user exists, in leaderboard order. */
  function Enriched(lb: seq<LeaderboardEntry>, users: map<string, User>): (r: seq<LeaderboardEntryDTO>)
    ensures |r| <= |lb|
    ensures forall d :: d in r ==>
      && d.userId in users && LeaderboardEntry(d.userId, d.score) in lb
      && d.userName == users[d.userId].name
      && d.joinedAt == users[d.userId].joinedAt && d.lastActive == users[d.userId].lastActive
    decreases |lb|
  {
    if lb == [] then []
    else
      var e := lb[|lb| - 1];
      var front := Enriched(lb[..|lb| - 1], users);
      assert forall x :: x in lb[..|lb| - 1] ==> x in lb;
      if e.userId in users then
        var u := users[e.userId];
        front + [LeaderboardEntryDTO(e.userId, e.score, u.name, u.joinedAt, u.lastActive)]
      else front
  }

  /** The positions of the leaderboard entries whose user exists, in increasing order. */
  ghost function KeptIndices(lb: seq<LeaderboardEntry>, users: map<string, User>): (idx: seq<nat>)
    ensures forall k :: 0 <= k < |idx| ==> idx[k] < |lb| && lb[idx[k]].userId in users
    ensures forall k, l :: 0 <= k < l < |idx| ==> idx[k] < idx[l]
    ensures forall i :: 0 <= i < |lb| && lb[i].userId in users ==> i in idx
    decreases |lb|
  {
    if lb == [] then []
    else
      var front := KeptIndices(lb[..|lb| - 1], users);
      if lb[|lb| - 1].userId in users then front + [|lb| - 1] else front
  }

  /**
   * The DTO list is the leaderboard filtered to the entries whose user exists,
   * in leaderboard order: the k-th DTO is built from the k-th kept entry and
   * its user's record.
   */
  lemma {:induction false} EnrichedFollowsLeaderboard(lb: seq<LeaderboardEntry>, users: map<string, User>)
    ensures |Enriched(lb, users)| == |KeptIndices(lb, users)|
    ensures forall k :: 0 <= k < |KeptIndices(lb, users)| ==>
      var e := lb[KeptIndices(lb, users)[k]];
      var u := users[e.userId];
      Enriched(lb, users)[k] == LeaderboardEntryDTO(e.userId, e.score, u.name, u.joinedAt, u.lastActive)
    decreases |lb|
  {
    if lb != [] {
      var front := lb[..|lb| - 1];
      EnrichedFollowsLeaderboard(front, users);
      var idx := KeptIndices(lb, users);
      var frontIdx := KeptIndices(front, users);
      var r := Enriched(lb, users);
      var frontR := Enriched(front, users);
      forall k | 0 <= k < |idx|
        ensures var e := lb[idx[k]];
          var u := users[e.userId];
          r[k] == LeaderboardEntryDTO(e.userId, e.score, u.name, u.joinedAt, u.lastActive)
      {
        if k < |frontIdx| {
          assert idx[k] == frontIdx[k];
          assert r[k] == frontR[k];
          assert lb[idx[k]] == front[frontIdx[k]];
        }
      }
    }
  }

  /** When every entry's user exists, no entry is skipped and the order is the leaderboard's. */
  lemma {:induction false} EnrichedKeepsAll(lb: seq<LeaderboardEntry>, users: map<string, User>)
    requires forall e :: e in lb ==> e.userId in users
    ensures |Enriched(lb, users)| == |lb|
    ensures forall i :: 0 <= i < |lb| ==>
      var u := users[lb[i].userId];
      Enriched(lb, users)[i] == LeaderboardEntryDTO(lb[i].userId, lb[i].score, u.name, u.joinedAt, u.lastActive)
    decreases |lb|
  {
    if lb != [] {
      var front := lb[..|lb| - 1];
      var e := lb[|lb| - 1];
      assert forall x :: x in front ==> x in lb;
      EnrichedKeepsAll(front, users);
      var u := users[e.userId];
      var r := Enriched(lb, users);
      assert r == Enriched(front, users) + [LeaderboardEntryDTO(e.userId, e.score, u.name, u.joinedAt, u.lastActive)];
      forall i | 0 <= i < |lb|
        ensures var v := users[lb[i].userId];
          r[i] == LeaderboardEntryDTO(lb[i].userId, lb[i].score, v.name, v.joinedAt, v.lastActive)
      {
        if i < |front| {
          assert lb[i] == front[i];
        }
      }
    }
  }

  /** Each entry whose user exists has its DTO in the list. */
  lemma {:induction false} EnrichedCoversKnown(lb: seq<LeaderboardEntry>, users: map<string, User>, e: LeaderboardEntry)
    requires e in lb && e.userId in users
    ensures var u := users[e.userId];
      LeaderboardEntryDTO(e.userId, e.score, u.name, u.joinedAt, u.lastActive) in Enriched(lb, users)
    decreases |lb|
  {
    if e != lb[|lb| - 1] {
      assert lb == lb[..|lb| - 1] + [lb[|lb| - 1]];
      EnrichedCoversKnown(lb[..|lb| - 1], users, e);
    }
  }

  /**
   * For a valid quiz no entry is skipped: the broadcast lists every user
   * once, in leaderboard order, with the entry's score and the user's record.
   */
  lemma BroadcastListsEveryUser(lb: seq<LeaderboardEntry>, users: map<string, User>)
    requires KeyedById(users) && Ranks(lb, users)
    ensures |Enriched(lb, users)| == |lb| == |users|
    ensures forall i :: 0 <= i < |lb| ==> lb[i].userId in users
    ensures forall i :: 0 <= i < |lb| ==>
      var u := users[lb[i].userId];
      Enriched(lb, users)[i] == LeaderboardEntryDTO(lb[i].userId, lb[i].score, u.name, u.joinedAt, u.lastActive)
    ensures forall k :: k in users ==>
      (exists i :: 0 <= i < |lb| && Enriched(lb, users)[i].userId == k && Enriched(lb, users)[i].score == users[k].score)
  {
    RankedLeaderboard(lb, users);
    forall e | e in lb ensures e.userId in users {
      var i :| 0 <= i < |lb| && lb[i] == e;
    }
    EnrichedKeepsAll(lb, users);
  }

  /** The leaderboard envelope for a quiz's leaderboard and users. */
  function LeaderboardMessage(lb: seq<LeaderboardEntry>, users: map<string, User>): Message {
    Message(Constants.MessageTypeLeaderboard, LeaderboardPayload(Enriched(lb, users)))
  }

  /** `order` lists every key of `keys` exactly once. */
  ghost predicate Enumerates(order: seq<string>, keys: set<string>) {
    && (forall i, j :: 0 <= i < j < |order| ==> order[i] != order[j])
    && (forall k :: k in order <==> k in keys)
  }

  /** A listing without repetition has as many elements as the keys it lists. */
  lemma {:induction false} EnumerationSize(order: seq<string>, keys: set<string>)
    requires Enumerates(order, keys)
    ensures |order| == |keys|
    decreases |order|
  {
    if order != [] {
      var last := order[|order| - 1];
      var front := order[..|order| - 1];
      assert last !in front by {
        forall i | 0 <= i < |front| ensures front[i] != last {}
      }
      forall k ensures k in front <==> k in keys - {last} {
        if k in keys - {last} {
          assert k in order;
          var i :| 0 <= i < |order| && order[i] == k;
          assert i < |order| - 1;
          assert front[i] == k;
        }
      }
      EnumerationSize(front, keys - {last});
    }
  }

  /** The frames of sending `m` to the connection of each user in `order`. */
  function Fanout(order: seq<string>, users: map<string, User>, m: Message, failing: set<ConnId>): (r: seq<Frame>)
    requires forall i :: 0 <= i < |order| ==> order[i] in users
    ensures |r| == |order|
    ensures forall i :: 0 <= i < |order| ==>
      r[i].conn == users[order[i]].conn && r[i].message == m && r[i].written == (r[i].conn !in failing)
    decreases |order|
  {
    if order == [] then []
    else
      var conn := users[order[|order| - 1]].conn;
      Fanout(order[..|order| - 1], users, m, failing) + [Frame(conn, m, conn !in failing)]
  }

  /**
   * A broadcast reaches every user exactly once, whatever writes fail: one
   * frame per user, carrying the same message. (That no user is listed twice
   * is part of Enumerates.)
   */
  lemma EveryUserOnce(order: seq<string>, users: map<string, User>, m: Message, failing: set<ConnId>)
    requires Enumerates(order, users.Keys)
    ensures |Fanout(order, users, m, failing)| == |users|
    ensures forall k :: k in users ==>
      (exists i :: 0 <= i < |order| && order[i] == k
         && Fanout(order, users, m, failing)[i] == Frame(users[k].conn, m, users[k].conn !in failing))
  {
    EnumerationSize(order, users.Keys);
    forall k | k in users
      ensures exists i :: (0 <= i < |order| && order[i] == k
        && Fanout(order, users, m, failing)[i] == Frame(users[k].conn, m, users[k].conn !in failing))
    {
      assert k in order;
    }
  }

  class WebSocketHandler {
    const quizService: QuizService
    const transport: Transport

    constructor (quizService: QuizService, transport: Transport)
      ensures this.quizService == quizService && this.transport == transport
    {
      this.quizService := quizService;
      this.transport := transport;
    }

    /** Writes one envelope to `conn`; a failed write is only logged. */
    method SendMessage(conn: ConnId, msgType: string, payload: Payload)
      modifies transport`sent
      ensures transport.sent == old(transport.sent) + [Frame(conn, Message(msgType, payload), conn !in transport.failing)]
    {
      var ok := transport.Write(conn, Message(msgType, payload));
    }

    /** Writes an `error` envelope carrying `errorMsg` to `conn`. */
    method SendError(conn: ConnId, errorMsg: string)
      modifies transport`sent
      ensures transport.sent == old(transport.sent) +
        [Frame(conn, Message(Constants.MessageTypeError, ErrorPayload(errorMsg)), conn !in transport.failing)]
    {
      SendMessage(conn, Constants.MessageTypeError, ErrorPayload(errorMsg));
    }

    /** Builds the leaderboard DTOs: entries of unknown users are skipped. */
    method LeaderboardDTOs(quiz: Quiz) returns (dtos: seq<LeaderboardEntryDTO>)
      ensures dtos == Enriched(quiz.leaderboard, quiz.users)
    {
      dtos := [];
      for i := 0 to |quiz.leaderboard|
        invariant dtos == Enriched(quiz.leaderboard[..i], quiz.users)
      {
        var entry := quiz.leaderboard[i];
        assert quiz.leaderboard[..i + 1][..i] == quiz.leaderboard[..i];
        if entry.userId in quiz.users {
          var user := quiz.users[entry.userId];
          dtos := dtos + [LeaderboardEntryDTO(entry.userId, entry.score, user.name, user.joinedAt, user.lastActive)];
        }
      }
      assert quiz.leaderboard[..|quiz.leaderboard|] == quiz.leaderboard;
    }

    /**
     * Sends the leaderboard envelope to the connection of every user of the
     * quiz, in some order of the users, carrying on past failed writes.
     */
    method BroadcastLeaderboard(quiz: Quiz) returns (ghost order: seq<string>)
      modifies transport`sent
      ensures Enumerates(order, quiz.users.Keys)
      ensures transport.sent == old(transport.sent) +
        Fanout(order, quiz.users, LeaderboardMessage(quiz.leaderboard, quiz.users), transport.failing)
    {
      var dtos := LeaderboardDTOs(quiz);
      ghost var m := LeaderboardMessage(quiz.leaderboard, quiz.users);
      order := [];
      var pending := quiz.users.Keys;
      while pending != {}
        invariant pending <= quiz.users.Keys
        invariant Enumerates(order, quiz.users.Keys - pending)
        invariant forall i :: 0 <= i < |order| ==> order[i] in quiz.users
        invariant transport.sent == old(transport.sent) + Fanout(order, quiz.users, m, transport.failing)
        decreases |pending|
      {
        var k :| k in pending;
        SendMessage(quiz.users[k].conn, Constants.MessageTypeLeaderboard, LeaderboardPayload(dtos));
        assert (order + [k])[..|order|] == order;
        order := order + [k];
        pending := pending - {k};
      }
      assert quiz.users.Keys - pending == quiz.users.Keys;
    }

    /** The answer names a quiz, a user of it and a question of it. */
    ghost predicate Answerable(p: AnswerPayload)
      reads quizService.repo, quizService.repo.quizzes.Values
    {
      && p.quizId in quizService.repo.quizzes
      && p.userId in quizService.repo.quizzes[p.quizId].users
      && Grade(quizService.repo.quizzes[p.quizId].questions, p.questionId, p.answer).Some?
    }

    /**
     * The `join` case: on success the sender gets `joined` with the quiz and
     * user ids and the connection is bound to that user, then the leaderboard
     * is broadcast; on failure the sender gets one error and nothing else.
     */
    method HandleJoin(conn: ConnId, p: JoinPayload, now: Time, bound: Option<string>)
      returns (rebound: Option<string>, ghost order: seq<string>)
      requires quizService.repo.Valid()
      modifies quizService.repo.quizzes.Values, transport`sent
      ensures quizService.repo.Valid()
      ensures p.quizId !in quizService.repo.quizzes ==>
        && rebound == bound
        && transport.sent == old(transport.sent) +
             [Frame(conn, Message(Constants.MessageTypeError, ErrorPayload(JoinFailedMessage)), conn !in transport.failing)]
        && forall q :: q in quizService.repo.quizzes.Values ==> unchanged(q)
      ensures p.quizId in quizService.repo.quizzes ==>
        var quiz := quizService.repo.quizzes[p.quizId];
        && quiz.users == Rejoin(old(quiz.users), p.userName, conn, now)
        && (p.userName in old(quiz.users) ==> quiz.leaderboard == old(quiz.leaderboard))
        && rebound == Some(p.userName)
        && Enumerates(order, quiz.users.Keys)
        && transport.sent == old(transport.sent) +
             [Frame(conn, Message(Constants.MessageTypeJoined, JoinedPayload(p.quizId, p.userName)), conn !in transport.failing)] +
             Fanout(order, quiz.users, LeaderboardMessage(quiz.leaderboard, quiz.users), transport.failing)
        && forall q :: q in quizService.repo.quizzes.Values && q != quiz ==> unchanged(q)
    {
      rebound, order := bound, [];
      var joined := quizService.JoinQuiz(p.quizId, p.userName, conn, now);
      if joined.Failure? {
        SendError(conn, JoinFailedMessage);
        return;
      }
      var user := joined.value.user;
      rebound := Some(user.id);
      SendMessage(conn, Constants.MessageTypeJoined, JoinedPayload(joined.value.quiz.id, user.id));
      order := BroadcastLeaderboard(joined.value.quiz);
    }

    /**
     * The `answer` case: on success the sender gets `result` with correctness
     * and the new score, then the leaderboard is broadcast; on failure the
     * sender gets one error and nothing else. The binding is not consulted.
     */
    method HandleAnswer(conn: ConnId, p: AnswerPayload) returns (ghost order: seq<string>)
      requires quizService.repo.Valid()
      modifies quizService.repo.quizzes.Values, transport`sent
      ensures quizService.repo.Valid()
      ensures !old(Answerable(p)) ==>
        && transport.sent == old(transport.sent) +
             [Frame(conn, Message(Constants.MessageTypeError, ErrorPayload(AnswerFailedMessage)), conn !in transport.failing)]
        && forall q :: q in quizService.repo.quizzes.Values ==> unchanged(q)
      ensures old(Answerable(p)) ==>
        var quiz := quizService.repo.quizzes[p.quizId];
        var correct := Grade(quiz.questions, p.questionId, p.answer).value;
        && quiz.users == Award(old(quiz.users), p.userId, correct)
        && Enumerates(order, quiz.users.Keys)
        && transport.sent == old(transport.sent) +
             [Frame(conn, Message(Constants.MessageTypeResult, ResultPayload(correct, quiz.users[p.userId].score)), conn !in transport.failing)] +
             Fanout(order, quiz.users, LeaderboardMessage(quiz.leaderboard, quiz.users), transport.failing)
        && forall q :: q in quizService.repo.quizzes.Values && q != quiz ==> unchanged(q)
    {
      order := [];
      var answered := quizService.SubmitAnswer(p);
      if answered.Failure? {
        SendError(conn, AnswerFailedMessage);
        return;
      }
      SendMessage(conn, Constants.MessageTypeResult, ResultPayload(answered.value.correct, answered.value.score));
      order := BroadcastLeaderboard(answered.value.quiz);
    }

    /**
     * One step of a connection's read loop: whether the loop goes on, and the
     * user the connection is bound to afterwards. A read failure ends the
     * loop; undecodable messages and payloads and unknown types are skipped
     * with no effect; joins and answers go to their cases.
     */
    method HandleMessage(conn: ConnId, inbound: Inbound, now: Time, bound: Option<string>)
      returns (keepReading: bool, rebound: Option<string>)
      requires quizService.repo.Valid()
      modifies quizService.repo.quizzes.Values, transport`sent
      ensures quizService.repo.Valid()
      ensures keepReading == !inbound.ReadFailed?
      ensures !IsJoin(inbound) ==> rebound == bound
      ensures !IsJoin(inbound) && !IsAnswer(inbound) ==>
        && transport.sent == old(transport.sent)
        && forall q :: q in quizService.repo.quizzes.Values ==> unchanged(q)
      ensures IsJoin(inbound) && inbound.asJoin.value.quizId !in quizService.repo.quizzes ==>
        && rebound == bound
        && transport.sent == old(transport.sent) +
             [Frame(conn, Message(Constants.MessageTypeError, ErrorPayload(JoinFailedMessage)), conn !in transport.failing)]
        && forall q :: q in quizService.repo.quizzes.Values ==> unchanged(q)
      ensures IsJoin(inbound) && inbound.asJoin.value.quizId in quizService.repo.quizzes ==>
        var p := inbound.asJoin.value;
        var quiz := quizService.repo.quizzes[p.quizId];
        && quiz.users == Rejoin(old(quiz.users), p.userName, conn, now)
        && (p.userName in old(quiz.users) ==> quiz.leaderboard == old(quiz.leaderboard))
        && rebound == Some(p.userName)
        && (exists order :: Enumerates(order, quiz.users.Keys)
             && transport.sent == old(transport.sent) +
                  [Frame(conn, Message(Constants.MessageTypeJoined, JoinedPayload(p.quizId, p.userName)), conn !in transport.failing)] +
                  Fanout(order, quiz.users, LeaderboardMessage(quiz.leaderboard, quiz.users), transport.failing))
        && forall q :: q in quizService.repo.quizzes.Values && q != quiz ==> unchanged(q)
      ensures IsAnswer(inbound) && !old(Answerable(inbound.asAnswer.value)) ==>
        && transport.sent == old(transport.sent) +
             [Frame(conn, Message(Constants.MessageTypeError, ErrorPayload(AnswerFailedMessage)), conn !in transport.failing)]
        && forall q :: q in quizService.repo.quizzes.Values ==> unchanged(q)
      ensures IsAnswer(inbound) && old(Answerable(inbound.asAnswer.value)) ==>
        var p := inbound.asAnswer.value;
        var quiz := quizService.repo.quizzes[p.quizId];
        var correct := Grade(quiz.questions, p.questionId, p.answer).value;
        && quiz.users == Award(old(quiz.users), p.userId, correct)
        && (exists order :: Enumerates(order, quiz.users.Keys)
             && transport.sent == old(transport.sent) +
                  [Frame(conn, Message(Constants.MessageTypeResult, ResultPayload(correct, quiz.users[p.userId].score)), conn !in transport.failing)] +
                  Fanout(order, quiz.users, LeaderboardMessage(quiz.leaderboard, quiz.users), transport.failing))
        && forall q :: q in quizService.repo.quizzes.Values && q != quiz ==> unchanged(q)
    {
      keepReading, rebound := true, bound;
      match inbound
      case ReadFailed =>
        keepReading := false;
      case Undecodable =>
      case Envelope(msgType, asJoin, asAnswer) =>
        if msgType == Constants.MessageTypeJoin {
          if asJoin.Some? {
            ghost var order;
            rebound, order := HandleJoin(conn, asJoin.value, now, bound);
          }
        } else if msgType == Constants.MessageTypeAnswer {
          if asAnswer.Some? {
            ghost var order := HandleAnswer(conn, asAnswer.value);
          }
        }
    }
  }
}
