/**
 * backend/socket_manager.py: the `Room` object whose fields the handlers update in place,
 * and the `SocketManager` that owns the rooms. Every method is proved to leave the room in
 * exactly the state the matching function of `RoomSpec` gives.
 */
module SocketManager {
  import opened Common
  import opened Scoring
  import opened Leaderboards
  import opened RoomSpec

  class Room {
    const code: string
    const quiz: Quiz
    var timeLimit: int
    var players: seq<Player>
    var organizer: Option<ClientId>
    var phase: Phase
    var questionIndex: int
    var questionStart: int
    var answered: set<ClientId>
    var connections: set<ClientId>
    var timerRunning: bool
    var previousLeaderboard: seq<Standing>
    var outbox: map<ClientId, seq<OutMsg>>

    function View(): RoomState
      reads this
    {
      RoomState(timeLimit, players, organizer, phase, questionIndex, questionStart, answered,
                connections, timerRunning, previousLeaderboard, outbox)
    }

    ghost predicate Valid()
      reads this
    {
      Inv(quiz, View())
    }

    constructor (code: string, quiz: Quiz, timeLimit: int)
      ensures this.code == code && this.quiz == quiz
      ensures View() == NewRoom(timeLimit) && Valid()
    {
      this.code := code;
      this.quiz := quiz;
      this.timeLimit := timeLimit;
      players := [];
      organizer := None;
      phase := Lobby;
      questionIndex := -1;
      questionStart := 0;
      answered := {};
      connections := {};
      timerRunning := false;
      previousLeaderboard := [];
      outbox := map[];
    }

    /** `broadcast`: sends to every connection, remembering the failed ones, then drops those. */
    method Broadcast(m: OutMsg, failing: set<ClientId>)
      modifies this
      ensures View() == AfterBroadcast(old(View()), m, failing)
    {
      var disconnected := SendEach(connections, m, failing);
      DropAll(disconnected);
    }

    /**
     * `broadcast_to_players`: the same, skipping connections whose id is not a player (the
     * loop's membership test is applied to the set it walks).
     */
    method BroadcastToPlayers(m: OutMsg, failing: set<ClientId>)
      modifies this
      ensures View() == AfterBroadcastToPlayers(old(View()), m, failing)
    {
      var disconnected := SendEach(connections * PlayerIds(players), m, failing);
      DropAll(disconnected);
    }

    /** The first loop of the broadcasts: send to each target, collecting the ids whose send failed. */
    method SendEach(targets: set<ClientId>, m: OutMsg, failing: set<ClientId>) returns (disconnected: seq<ClientId>)
      modifies this`outbox
      ensures outbox == Deliver(old(outbox), targets - failing, m)
      ensures forall x :: x in disconnected <==> x in targets * failing
    {
      var pending := targets;
      disconnected := [];
      ghost var reached: set<ClientId> := {};
      while pending != {}
        invariant pending <= targets
        invariant reached == (targets - pending) - failing
        invariant outbox == Deliver(old(outbox), reached, m)
        invariant forall x :: x in disconnected <==> x in (targets - pending) * failing
        decreases pending
      {
        var c :| c in pending;
        if c in failing {
          disconnected := disconnected + [c];
        } else {
          DeliverOneMore(old(outbox), reached, c, m);
          outbox := outbox[c := Sent(outbox, c) + [m]];
          reached := reached + {c};
        }
        pending := pending - {c};
      }
    }

    /** The second loop of the broadcasts: delete each collected id from `connections`. */
    method DropAll(disconnected: seq<ClientId>)
      modifies this`connections
      ensures connections == old(connections) - set x | x in disconnected
    {
      var i := 0;
      while i < |disconnected|
        invariant 0 <= i <= |disconnected|
        invariant connections == old(connections) - set x | x in disconnected[..i]
      {
        assert disconnected[..i + 1] == disconnected[..i] + [disconnected[i]];
        connections := connections - {disconnected[i]};
        i := i + 1;
      }
      assert disconnected[..i] == disconnected;
    }

    method SendToOrganizer(m: OutMsg, failing: set<ClientId>)
      modifies this
      ensures View() == AfterSendToOrganizer(old(View()), m, failing)
    {
      if organizer.Some? {
        var o := organizer.value;
        if o in failing {
          organizer := None;
        } else {
          DeliverOne(outbox, o, m);
          outbox := outbox[o := Sent(outbox, o) + [m]];
        }
      }
    }

    /** `room.connections[client_id].send_json(m)`: raises on a missing key or a failed send. */
    method Reply(c: ClientId, m: OutMsg, failing: set<ClientId>) returns (fault: Option<Fault>)
      modifies this
      ensures Step(View(), fault) == AfterReply(old(View()), c, m, failing)
    {
      if c !in connections {
        return Some(UnknownConnection);
      }
      if c in failing {
        return Some(SendFailed);
      }
      DeliverOne(outbox, c, m);
      outbox := outbox[c := Sent(outbox, c) + [m]];
      return None;
    }

    /** `start_question`, at tick `now`. */
    method StartQuestion(now: int, failing: set<ClientId>)
      requires Valid()
      modifies this
      ensures View() == AfterStartQuestion(quiz, old(View()), now, failing) && Valid()
    {
      timerRunning := false;
      questionIndex := questionIndex + 1;
      if questionIndex >= |quiz.questions| {
        phase := Podium;
        Broadcast(PodiumMsg(Ranking(players)), failing);
        return;
      }
      OpenQuestion(Ranking(players), now, failing);
    }

    /** The rest of `start_question` when there is a question at the new index. */
    method OpenQuestion(board: seq<Standing>, now: int, failing: set<ClientId>)
      requires Valid() && 0 <= questionIndex < |quiz.questions|
      modifies this
      ensures View() == AfterOpenQuestion(quiz, old(View()), board, now, failing) && Valid()
    {
      previousLeaderboard := board;
      phase := Question;
      questionStart := now;
      answered := {};
      Broadcast(QuestionAnnouncement(quiz, questionIndex, timeLimit), failing);
      timerRunning := true;
    }

    /** `end_question`. */
    method EndQuestion(failing: set<ClientId>)
      requires Valid() && 0 <= questionIndex < |quiz.questions|
      modifies this
      ensures View() == AfterEndQuestion(quiz, old(View()), failing) && Valid()
    {
      timerRunning := false;
      phase := Leaderboard;
      var q := quiz.questions[questionIndex];
      var current := LeaderboardWithChanges(players, previousLeaderboard);
      var isFinal := questionIndex >= |quiz.questions| - 1;
      Broadcast(QuestionOverMsg(q.answerIndex, current, previousLeaderboard, isFinal), failing);
    }

    /** The end of `question_timer`: the question is ended only if still running. */
    method TimerExpired(failing: set<ClientId>)
      requires Valid()
      modifies this
      ensures View() == AfterTimerExpired(quiz, old(View()), failing) && Valid()
    {
      if phase == Question {
        EndQuestion(failing);
      }
    }

    /** `question_timer`, run to completion while nothing else touches the room. */
    method QuestionTimer(failing: set<ClientId>)
      requires Valid() && timerRunning
      modifies this
      ensures View() == AfterTimerExpired(quiz, AfterTicks(old(View()), old(timeLimit), failing), failing)
      ensures Valid()
    {
      var remaining := timeLimit;
      while remaining > 0
        invariant AfterTicks(View(), remaining, failing) == AfterTicks(old(View()), old(timeLimit), failing)
        invariant View().(outbox := old(outbox), connections := old(connections)) == old(View())
        decreases remaining
      {
        Broadcast(TimerMsg(remaining), failing);
        remaining := remaining - 1;
      }
      TimerExpired(failing);
    }

    /** JOIN from client `c`. */
    method Join(c: ClientId, nickname: Option<string>, failing: set<ClientId>)
      modifies this
      ensures View() == AfterJoin(old(View()), c, nickname, failing)
    {
      var nick := nickname.GetOr(DefaultNickname(|players|));
      var p := Player(c, nick, 0, 0);
      players := SetPlayer(players, p);
      Broadcast(PlayerJoinedMsg(nick, |players|), failing);
    }

    /** ANSWER from client `c`, at tick `now`. */
    method Answer(c: ClientId, answer: Option<int>, now: int, failing: set<ClientId>) returns (fault: Option<Fault>)
      requires Valid()
      modifies this
      ensures Step(View(), fault) == AfterAnswer(quiz, old(View()), c, answer, now, failing) && Valid()
    {
      if phase != Question || c in answered {
        return None;
      }
      answered := answered + {c};
      fault := ScoreAnswer(c, answer, now, failing);
    }

    /** The body of an accepted ANSWER: score it, reply, and end the question if all answered. */
    method ScoreAnswer(c: ClientId, answer: Option<int>, now: int, failing: set<ClientId>) returns (fault: Option<Fault>)
      requires Valid() && phase == Question
      modifies this
      ensures Step(View(), fault) == AfterAccepted(quiz, old(View()), c, answer, now, failing) && Valid()
    {
      ghost var st0 := View();
      var q := quiz.questions[questionIndex];
      if answer == Some(q.answerIndex) {
        if timeLimit == 0 {
          AcceptedFaults(quiz, st0, c, now, failing);
          assert AfterAccepted(quiz, st0, c, answer, now, failing) == Step(st0, Some(ZeroTimeLimit));
          return Some(ZeroTimeLimit);
        }
        var points := Points(now - questionStart, timeLimit);
        match PlayerIndex(players, c)
        case None =>
          AcceptedFaults(quiz, st0, c, now, failing);
          assert AfterAccepted(quiz, st0, c, answer, now, failing) == Step(st0, Some(UnknownPlayer));
          return Some(UnknownPlayer);
        case Some(k) =>
          ghost var st1 := st0.(players := st0.players[k := st0.players[k].(score := st0.players[k].score + points)]);
          AcceptedCorrect(quiz, st0, c, answer, now, failing, k, points, st1);
          players := players[k := players[k].(score := players[k].score + points)];
          assert View() == st1;
          fault := ReplyAndCheck(c, AnswerResultMsg(true, points), failing);
      } else {
        AcceptedWrong(quiz, st0, c, answer, now, failing);
        fault := ReplyAndCheck(c, AnswerResultMsg(false, 0), failing);
        assert Step(View(), fault) == AfterAccepted(quiz, st0, c, answer, now, failing);
      }
    }

    /** Reply to the answering client; once everyone has answered, end the question. */
    method ReplyAndCheck(c: ClientId, m: OutMsg, failing: set<ClientId>) returns (fault: Option<Fault>)
      requires Valid() && phase == Question
      modifies this
      ensures Step(View(), fault) == AfterReplyAndCheck(quiz, old(View()), c, m, failing) && Valid()
    {
      fault := Reply(c, m, failing);
      if fault.None? && |answered| >= |players| {
        EndQuestion(failing);
      }
    }

    /** `handle_message` for this room. */
    method HandleMessage(c: ClientId, isOrganizer: bool, msg: InMsg, now: int, failing: set<ClientId>)
      returns (fault: Option<Fault>)
      requires Valid()
      modifies this
      ensures Step(View(), fault) == AfterMessage(quiz, old(View()), c, isOrganizer, msg, now, failing) && Valid()
    {
      fault := None;
      if isOrganizer {
        match msg
        case StartGame =>
          phase := Intro;
          Broadcast(GameStartingMsg, failing);
        case NextQuestion =>
          StartQuestion(now, failing);
        case SetTimeLimit(t) =>
          timeLimit := t.GetOr(DefaultTimeLimit);
        case _ =>
      } else {
        match msg
        case Join(nickname) =>
          Join(c, nickname, failing);
        case Answer(answer) =>
          fault := Answer(c, answer, now, failing);
        case _ =>
      }
    }

    /**
     * The part of `connect` after the room was found: register client `c` (and the
     * organizer), then greet it directly.
     */
    method Register(code: string, c: ClientId, isOrganizer: bool, failing: set<ClientId>) returns (fault: Option<Fault>)
      requires Valid()
      modifies this
      ensures Step(View(), fault) == AfterConnect(old(View()), code, c, isOrganizer, failing) && Valid()
    {
      connections := connections + {c};
      if isOrganizer {
        organizer := Some(c);
      }
      var greeting := if isOrganizer then RoomCreatedMsg(code) else JoinedRoomMsg(code);
      fault := Reply(c, greeting, failing);
    }

    /**
     * The receive loop of `connect`: the messages of `inbox` are handled (the i-th at tick
     * `clock[i]`) until one raises or they run out, and the connection is then cleaned up.
     */
    method Session(c: ClientId, isOrganizer: bool, inbox: seq<InMsg>, clock: seq<int>, failing: set<ClientId>)
      requires Valid() && |clock| == |inbox|
      modifies this
      ensures View() == AfterSession(quiz, old(View()), c, isOrganizer, inbox, clock, failing) && Valid()
    {
      var i := 0;
      while i < |inbox|
        invariant 0 <= i <= |inbox| && Valid()
        invariant AfterSession(quiz, View(), c, isOrganizer, inbox[i..], clock[i..], failing)
               == AfterSession(quiz, old(View()), c, isOrganizer, inbox, clock, failing)
      {
        var fault := HandleMessage(c, isOrganizer, inbox[i], clock[i], failing);
        if fault.Some? {
          break;
        }
        i := i + 1;
      }
      ConnectionLost(c, isOrganizer);
    }

    /** The `except` branch of the receive loop. */
    method ConnectionLost(c: ClientId, isOrganizer: bool)
      modifies this
      ensures View() == AfterConnectionLost(old(View()), c, isOrganizer)
    {
      connections := connections - {c};
      if isOrganizer {
        organizer := None;
      }
    }
  }

  /** Delivering to a single target is appending to its outbox. */
  lemma DeliverOne(outbox: map<ClientId, seq<OutMsg>>, c: ClientId, m: OutMsg)
    ensures Deliver(outbox, {c}, m) == outbox[c := Sent(outbox, c) + [m]]
  {
    DeliverOneMore(outbox, {}, c, m);
  }

  /** Delivering to one more target is one more append. */
  lemma DeliverOneMore(outbox: map<ClientId, seq<OutMsg>>, targets: set<ClientId>, c: ClientId, m: OutMsg)
    requires c !in targets
    ensures var o := Deliver(outbox, targets, m);
      o[c := Sent(o, c) + [m]] == Deliver(outbox, targets + {c}, m)
  {
  }

  /** How `connect` ended. */
  datatype ConnectOutcome =
    | RoomNotFound(reply: OutMsg)      // the ERROR sent before closing the socket
    | GreetingFailed                   // the direct greeting raised out of `connect`
    | Disconnected                     // the receive loop ended and was cleaned up

  class SocketManager {
    var rooms: map<string, Room>

    constructor ()
      ensures rooms == map[]
    {
      rooms := map[];
    }

    /** `create_room`: a fresh room replaces any room under the same code. */
    method CreateRoom(code: string, quiz: Quiz, timeLimit: int) returns (room: Room)
      modifies this
      ensures fresh(room) && rooms == old(rooms)[code := room]
      ensures room.code == code && room.quiz == quiz && room.View() == NewRoom(timeLimit) && room.Valid()
    {
      room := new Room(code, quiz, timeLimit);
      rooms := rooms[code := room];
    }

    /**
     * `connect` for client `c`: an unknown code is answered with an ERROR and nothing
     * changes; otherwise the connection is registered and greeted, the messages of `inbox`
     * are handled (the i-th at tick `clock[i]`) until one raises or they run out, and the
     * connection is then cleaned up.
     */
    method Connect(code: string, c: ClientId, isOrganizer: bool, inbox: seq<InMsg>, clock: seq<int>,
                   failing: set<ClientId>) returns (outcome: ConnectOutcome)
      requires |clock| == |inbox|
      requires code in rooms ==> rooms[code].Valid()
      modifies if code in rooms then {rooms[code]} else {}
      ensures code !in rooms ==> outcome == RoomNotFound(ErrorMsg("Room not found"))
      ensures code in rooms ==>
        var room := rooms[code];
        var greeted := AfterConnect(old(room.View()), code, c, isOrganizer, failing);
        && room.Valid()
        && (greeted.fault.Some? ==> outcome == GreetingFailed && room.View() == greeted.room)
        && (greeted.fault.None? ==>
              outcome == Disconnected &&
              room.View() == AfterSession(room.quiz, greeted.room, c, isOrganizer, inbox, clock, failing))
    {
      if code !in rooms {
        return RoomNotFound(ErrorMsg("Room not found"));
      }
      var room := rooms[code];
      var fault := room.Register(code, c, isOrganizer, failing);
      if fault.Some? {
        return GreetingFailed;
      }
      room.Session(c, isOrganizer, inbox, clock, failing);
      return Disconnected;
    }
  }
}
