/**
 * The state of one game room of backend/socket_manager.py as a value, and one pure
 * function per operation giving the state after it. The `Room` class in module
 * `SocketManager` is proved to change its fields exactly as these functions say; the
 * lemmas here state what the operations promise.
 *
 * Outbound traffic: every websocket is identified with the client id it connected under,
 * and what is delivered to it is appended to `outbox[id]`. Which sends fail is an input,
 * `failing`: a send to a failing id delivers nothing and raises.
 */
module RoomSpec {
  import opened Common
  import opened Scoring
  import opened Leaderboards
  import Numerals

  /** A question as the room holds it (a quiz that passed validation). */
  datatype QuizQuestion = QuizQuestion(
    id: int, text: string, options: seq<string>, answerIndex: int,
    imagePrompt: Option<string>, imageUrl: Option<string>)

  datatype Quiz = Quiz(title: string, questions: seq<QuizQuestion>)

  /** A question as broadcast to players: every field but `answer_index`. */
  datatype PublicQuestion = PublicQuestion(
    id: int, text: string, options: seq<string>,
    imagePrompt: Option<string>, imageUrl: Option<string>)

  function Redact(q: QuizQuestion): PublicQuestion {
    PublicQuestion(q.id, q.text, q.options, q.imagePrompt, q.imageUrl)
  }

  datatype Phase = Lobby | Intro | Question | Leaderboard | Podium

  /** Inbound messages, by their `type`; a missing field is `None`. */
  datatype InMsg =
    | Join(nickname: Option<string>)
    | Answer(answerIndex: Option<int>)
    | StartGame
    | NextQuestion
    | SetTimeLimit(timeLimit: Option<int>)
    | Other

  /** Outbound messages, by their `type`. */
  datatype OutMsg =
    | ErrorMsg(message: string)
    | RoomCreatedMsg(roomCode: string)
    | JoinedRoomMsg(roomCode: string)
    | GameStartingMsg
    | PlayerJoinedMsg(nickname: string, playerCount: nat)
    | AnswerResultMsg(correct: bool, points: int)
    | QuestionMsg(question: PublicQuestion, questionNumber: int, totalQuestions: nat, timeLimit: int)
    | TimerMsg(remaining: int)
    | QuestionOverMsg(answer: int, leaderboard: seq<RankedStanding>, previousLeaderboard: seq<Standing>, isFinal: bool)
    | PodiumMsg(finalLeaderboard: seq<Standing>)

  /** The exceptions `handle_message` can raise. */
  datatype Fault =
    | ZeroTimeLimit        // ZeroDivisionError: time_limit is 0
    | UnknownPlayer        // KeyError: room.players[client_id]
    | UnknownConnection    // KeyError: room.connections[client_id]
    | SendFailed           // the direct send to the answering client raised

  const DefaultTimeLimit: int := 15

  /** The mutable fields of a `Room` (the code and the quiz never change). */
  datatype RoomState = RoomState(
    timeLimit: int,
    players: seq<Player>,
    organizer: Option<ClientId>,
    phase: Phase,
    questionIndex: int,
    questionStart: int,
    answered: set<ClientId>,
    connections: set<ClientId>,
    timerRunning: bool,
    previousLeaderboard: seq<Standing>,
    outbox: map<ClientId, seq<OutMsg>>)

  /** A state together with the exception, if any, that the operation raised. */
  datatype Step = Step(room: RoomState, fault: Option<Fault>)

  /** `Room.__init__`. */
  function NewRoom(timeLimit: int): RoomState {
    RoomState(timeLimit, [], None, Lobby, -1, 0, {}, {}, false, [], map[])
  }

  // ----- players: an insertion-ordered dict from client id to record -----

  ghost predicate DistinctIds(players: seq<Player>) {
    forall i, j :: 0 <= i < j < |players| ==> players[i].id != players[j].id
  }

  function PlayerIds(players: seq<Player>): set<ClientId> {
    set p | p in players :: p.id
  }

  /** Where `id` is stored in `players`, if anywhere. */
  function PlayerIndex(players: seq<Player>, id: ClientId): (r: Option<nat>)
    ensures r.Some? ==> r.value < |players| && players[r.value].id == id
    ensures r.None? ==> forall i :: 0 <= i < |players| ==> players[i].id != id
  {
    if players == [] then None
    else if players[0].id == id then Some(0)
    else match PlayerIndex(players[1..], id)
      case None => None
      case Some(k) => Some(k + 1)
  }

  /** `players[p.id] = p`: overwrite in place, or append a new key. */
  function SetPlayer(players: seq<Player>, p: Player): seq<Player> {
    match PlayerIndex(players, p.id)
    case Some(k) => players[k := p]
    case None => players + [p]
  }

  /** The default nickname `f"Player {len(room.players) + 1}"`. */
  function DefaultNickname(count: nat): string {
    "Player " + Numerals.NatToString(count + 1)
  }

  ghost predicate Inv(quiz: Quiz, st: RoomState) {
    && DistinctIds(st.players)
    && st.questionIndex >= -1
    && (st.phase == Question ==> 0 <= st.questionIndex < |quiz.questions|)
  }

  // ----- delivery -----

  function Sent(outbox: map<ClientId, seq<OutMsg>>, c: ClientId): seq<OutMsg> {
    if c in outbox then outbox[c] else []
  }

  /** Appends `m` to the outbox of every id in `targets`. */
  function Deliver(outbox: map<ClientId, seq<OutMsg>>, targets: set<ClientId>, m: OutMsg): map<ClientId, seq<OutMsg>> {
    map c | c in outbox.Keys + targets :: if c in targets then Sent(outbox, c) + [m] else outbox[c]
  }

  lemma DeliverSent(outbox: map<ClientId, seq<OutMsg>>, targets: set<ClientId>, m: OutMsg, c: ClientId)
    ensures Sent(Deliver(outbox, targets, m), c) == if c in targets then Sent(outbox, c) + [m] else Sent(outbox, c)
  {
  }

  /** `Room.broadcast`: send to every connection, then drop the ones whose send failed. */
  function AfterBroadcast(st: RoomState, m: OutMsg, failing: set<ClientId>): RoomState {
    st.(outbox := Deliver(st.outbox, st.connections - failing, m),
        connections := st.connections - failing)
  }

  /** `Room.broadcast_to_players`: the same, restricted to connections that are players. */
  function AfterBroadcastToPlayers(st: RoomState, m: OutMsg, failing: set<ClientId>): RoomState {
    var targets := st.connections * PlayerIds(st.players);
    st.(outbox := Deliver(st.outbox, targets - failing, m),
        connections := st.connections - targets * failing)
  }

  /** `Room.send_to_organizer`: a failed send forgets the organizer. */
  function AfterSendToOrganizer(st: RoomState, m: OutMsg, failing: set<ClientId>): RoomState {
    match st.organizer
    case None => st
    case Some(o) =>
      if o in failing then st.(organizer := None) else st.(outbox := Deliver(st.outbox, {o}, m))
  }

  /** `await room.connections[client_id].send_json(m)`: a missing key or a failed send raises. */
  function AfterReply(st: RoomState, c: ClientId, m: OutMsg, failing: set<ClientId>): Step {
    if c !in st.connections then Step(st, Some(UnknownConnection))
    else if c in failing then Step(st, Some(SendFailed))
    else Step(st.(outbox := Deliver(st.outbox, {c}, m)), None)
  }

  // ----- the question lifecycle -----

  /** `start_question`: advance the index, then either the podium or the next question. */
  function AfterStartQuestion(quiz: Quiz, st: RoomState, now: int, failing: set<ClientId>): (r: RoomState)
    requires Inv(quiz, st)
    ensures Inv(quiz, r)
  {
    var index := st.questionIndex + 1;
    var st1 := st.(timerRunning := false, questionIndex := index);
    if index >= |quiz.questions| then AfterBroadcast(st1.(phase := Podium), PodiumMsg(Ranking(st.players)), failing)
    else AfterOpenQuestion(quiz, st1, Ranking(st.players), now, failing)
  }

  /**
   * The question at the (already advanced) index: `board` becomes the snapshot of the
   * previous leaderboard, the answers are cleared, the question is announced and the timer
   * started.
   */
  function AfterOpenQuestion(quiz: Quiz, st: RoomState, board: seq<Standing>, now: int, failing: set<ClientId>): (r: RoomState)
    requires Inv(quiz, st) && 0 <= st.questionIndex < |quiz.questions|
    ensures Inv(quiz, r)
  {
    var st2 := st.(previousLeaderboard := board, phase := Question, questionStart := now, answered := {});
    AfterBroadcast(st2, QuestionAnnouncement(quiz, st.questionIndex, st.timeLimit), failing).(timerRunning := true)
  }

  /** The QUESTION message for question `index`: the question without its answer, numbered from 1. */
  function QuestionAnnouncement(quiz: Quiz, index: int, timeLimit: int): OutMsg
    requires 0 <= index < |quiz.questions|
  {
    QuestionMsg(Redact(quiz.questions[index]), index + 1, |quiz.questions|, timeLimit)
  }

  /** `end_question`. */
  function AfterEndQuestion(quiz: Quiz, st: RoomState, failing: set<ClientId>): (r: RoomState)
    requires Inv(quiz, st) && 0 <= st.questionIndex < |quiz.questions|
    ensures Inv(quiz, r)
  {
    var st1 := st.(timerRunning := false, phase := Leaderboard);
    var q := quiz.questions[st.questionIndex];
    var isFinal := st.questionIndex >= |quiz.questions| - 1;
    var m := QuestionOverMsg(q.answerIndex, RankedLeaderboard(st.players, st.previousLeaderboard),
                             st.previousLeaderboard, isFinal);
    AfterBroadcast(st1, m, failing)
  }

  /** The end of `question_timer`: end the question only if it is still running. */
  function AfterTimerExpired(quiz: Quiz, st: RoomState, failing: set<ClientId>): (r: RoomState)
    requires Inv(quiz, st)
    ensures Inv(quiz, r)
  {
    if st.phase == Question then AfterEndQuestion(quiz, st, failing) else st
  }

  /** The countdown of `question_timer`: ticks `remaining, remaining - 1, ..., 1`. */
  function AfterTicks(st: RoomState, remaining: int, failing: set<ClientId>): (r: RoomState)
    ensures r.(outbox := st.outbox, connections := st.connections) == st
    decreases remaining
  {
    if remaining <= 0 then st
    else AfterTicks(AfterBroadcast(st, TimerMsg(remaining), failing), remaining - 1, failing)
  }

  /** The TIMER messages of a countdown from `n`. */
  function Countdown(n: int): seq<OutMsg>
    decreases n
  {
    if n <= 0 then [] else [TimerMsg(n)] + Countdown(n - 1)
  }

  // ----- inbound messages -----

  /** JOIN. */
  function AfterJoin(st: RoomState, c: ClientId, nickname: Option<string>, failing: set<ClientId>): RoomState {
    var nick := nickname.GetOr(DefaultNickname(|st.players|));
    var players := SetPlayer(st.players, Player(c, nick, 0, 0));
    AfterBroadcast(st.(players := players), PlayerJoinedMsg(nick, |players|), failing)
  }

  /** After the reply to an accepted answer: end the question once everyone has answered. */
  function AfterReplyAndCheck(quiz: Quiz, st: RoomState, c: ClientId, m: OutMsg, failing: set<ClientId>): (r: Step)
    requires Inv(quiz, st) && st.phase == Question
    ensures Inv(quiz, r.room)
  {
    var sent := AfterReply(st, c, m, failing);
    if sent.fault.Some? then sent
    else if |sent.room.answered| >= |sent.room.players| then Step(AfterEndQuestion(quiz, sent.room, failing), None)
    else sent
  }

  /** ANSWER, at tick `now`: ignored outside QUESTION and after the client's first answer. */
  function AfterAnswer(quiz: Quiz, st: RoomState, c: ClientId, answer: Option<int>, now: int, failing: set<ClientId>): (r: Step)
    requires Inv(quiz, st)
    ensures Inv(quiz, r.room)
  {
    if st.phase != Question || c in st.answered then Step(st, None)
    else AfterAccepted(quiz, st.(answered := st.answered + {c}), c, answer, now, failing)
  }

  /** An accepted ANSWER, `c` already recorded as having answered: score it and reply. */
  function AfterAccepted(quiz: Quiz, st: RoomState, c: ClientId, answer: Option<int>, now: int, failing: set<ClientId>): (r: Step)
    requires Inv(quiz, st) && st.phase == Question
    ensures Inv(quiz, r.room)
  {
    var q := quiz.questions[st.questionIndex];
    if answer == Some(q.answerIndex) then
      if st.timeLimit == 0 then Step(st, Some(ZeroTimeLimit))
      else
        var points := Points(now - st.questionStart, st.timeLimit);
        match PlayerIndex(st.players, c)
        case None => Step(st, Some(UnknownPlayer))
        case Some(k) =>
          var p := st.players[k];
          AfterReplyAndCheck(quiz, st.(players := st.players[k := p.(score := p.score + points)]),
                             c, AnswerResultMsg(true, points), failing)
    else
      AfterReplyAndCheck(quiz, st, c, AnswerResultMsg(false, 0), failing)
  }

  /** A correct answer from player `k` is their score raised by the points, then the reply. */
  lemma AcceptedCorrect(quiz: Quiz, st: RoomState, c: ClientId, answer: Option<int>, now: int, failing: set<ClientId>,
                        k: nat, points: int, st1: RoomState)
    requires Inv(quiz, st) && st.phase == Question && st.timeLimit != 0
    requires answer == Some(quiz.questions[st.questionIndex].answerIndex)
    requires PlayerIndex(st.players, c) == Some(k)
    requires points == Points(now - st.questionStart, st.timeLimit)
    requires st1 == st.(players := st.players[k := st.players[k].(score := st.players[k].score + points)])
    ensures Inv(quiz, st1) && st1.phase == Question
    ensures AfterAccepted(quiz, st, c, answer, now, failing)
         == AfterReplyAndCheck(quiz, st1, c, AnswerResultMsg(true, points), failing)
  {
  }

  /** A correct answer raises, changing nothing, when the time limit is 0 or `c` never joined. */
  lemma AcceptedFaults(quiz: Quiz, st: RoomState, c: ClientId, now: int, failing: set<ClientId>)
    requires Inv(quiz, st) && st.phase == Question
    requires st.timeLimit == 0 || PlayerIndex(st.players, c).None?
    ensures AfterAccepted(quiz, st, c, Some(quiz.questions[st.questionIndex].answerIndex), now, failing)
         == Step(st, Some(if st.timeLimit == 0 then ZeroTimeLimit else UnknownPlayer))
  {
  }

  /** A wrong answer is the reply "0 points" and nothing else. */
  lemma AcceptedWrong(quiz: Quiz, st: RoomState, c: ClientId, answer: Option<int>, now: int, failing: set<ClientId>)
    requires Inv(quiz, st) && st.phase == Question
    requires answer != Some(quiz.questions[st.questionIndex].answerIndex)
    ensures AfterAccepted(quiz, st, c, answer, now, failing)
         == AfterReplyAndCheck(quiz, st, c, AnswerResultMsg(false, 0), failing)
  {
  }

  /** `handle_message`: organizer messages and player messages are dispatched separately. */
  function AfterMessage(quiz: Quiz, st: RoomState, c: ClientId, isOrganizer: bool, msg: InMsg,
                        now: int, failing: set<ClientId>): (r: Step)
    requires Inv(quiz, st)
    ensures Inv(quiz, r.room)
  {
    if isOrganizer then
      match msg
      case StartGame => Step(AfterBroadcast(st.(phase := Intro), GameStartingMsg, failing), None)
      case NextQuestion => Step(AfterStartQuestion(quiz, st, now, failing), None)
      case SetTimeLimit(t) => Step(st.(timeLimit := t.GetOr(DefaultTimeLimit)), None)
      case _ => Step(st, None)
    else
      match msg
      case Join(nickname) => Step(AfterJoin(st, c, nickname, failing), None)
      case Answer(answer) => AfterAnswer(quiz, st, c, answer, now, failing)
      case _ => Step(st, None)
  }

  /** The `except` branch of `connect`'s receive loop. */
  function AfterConnectionLost(st: RoomState, c: ClientId, isOrganizer: bool): RoomState {
    st.(connections := st.connections - {c},
        organizer := if isOrganizer then None else st.organizer)
  }
  // ----- a connection's life -----

  /**
   * The part of `connect` after the room was found: register the connection (and the
   * organizer), then greet the client directly. That send is outside the `try`, so when it
   * fails the exception escapes with the connection still registered.
   */
  function AfterConnect(st: RoomState, code: string, c: ClientId, isOrganizer: bool, failing: set<ClientId>): Step {
    var st1 := st.(connections := st.connections + {c},
                   organizer := if isOrganizer then Some(c) else st.organizer);
    var greeting := if isOrganizer then RoomCreatedMsg(code) else JoinedRoomMsg(code);
    if c in failing then Step(st1, Some(SendFailed))
    else Step(st1.(outbox := Deliver(st1.outbox, {c}, greeting)), None)
  }

  /**
   * The receive loop of `connect`: handle each inbound message at its tick until one raises
   * or the client goes away (the inbox runs out); then run the `except` cleanup.
   */
  function AfterSession(quiz: Quiz, st: RoomState, c: ClientId, isOrganizer: bool, inbox: seq<InMsg>,
                        clock: seq<int>, failing: set<ClientId>): (r: RoomState)
    requires Inv(quiz, st) && |clock| == |inbox|
    ensures Inv(quiz, r)
    decreases |inbox|
  {
    if inbox == [] then AfterConnectionLost(st, c, isOrganizer)
    else
      var s := AfterMessage(quiz, st, c, isOrganizer, inbox[0], clock[0], failing);
      if s.fault.Some? then AfterConnectionLost(s.room, c, isOrganizer)
      else AfterSession(quiz, s.room, c, isOrganizer, inbox[1..], clock[1..], failing)
  }
}
