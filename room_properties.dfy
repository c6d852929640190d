/** What the room operations of backend/socket_manager.py promise, stated over `RoomSpec`. */
module RoomProperties {
  import opened Common
  import opened Scoring
  import opened Leaderboards
  import opened RoomSpec

  // ----- players dict -----

  /** With distinct ids, `len(room.players)` (the number of keys) is the length of the entry list. */
  lemma {:induction false} DistinctIdsCount(players: seq<Player>)
    requires DistinctIds(players)
    ensures |PlayerIds(players)| == |players|
  {
    if players != [] {
      var init := players[..|players| - 1];
      var last := players[|players| - 1];
      assert players == init + [last];
      assert DistinctIds(init);
      DistinctIdsCount(init);
      PlayerIdsSnoc(init, last);
      LastIdIsNew(players);
    }
  }

  lemma PlayerIdsSnoc(init: seq<Player>, last: Player)
    ensures PlayerIds(init + [last]) == PlayerIds(init) + {last.id}
  {
    var players := init + [last];
    forall id | id in PlayerIds(players) ensures id in PlayerIds(init) + {last.id} {
      var p :| p in players && p.id == id;
      var i :| 0 <= i < |players| && players[i] == p;
      if i < |init| { assert init[i] == p; }
    }
    forall id | id in PlayerIds(init) ensures id in PlayerIds(players) {
      var p :| p in init && p.id == id;
      assert p in players;
    }
  }

  lemma LastIdIsNew(players: seq<Player>)
    requires DistinctIds(players) && players != []
    ensures players[|players| - 1].id !in PlayerIds(players[..|players| - 1])
  {
    var init := players[..|players| - 1];
    forall p | p in init ensures p.id != players[|players| - 1].id {
      var i :| 0 <= i < |init| && init[i] == p;
      assert players[i] == p;
    }
  }

  lemma PlayerIdsMember(players: seq<Player>, id: ClientId)
    ensures id in PlayerIds(players) <==> PlayerIndex(players, id).Some?
  {
    if PlayerIndex(players, id).Some? {
      assert players[PlayerIndex(players, id).value] in players;
    }
  }

  // ----- delivery -----

  /**
   * `broadcast` delivers `m` to exactly the connections whose send does not fail, then
   * removes exactly the failed ones; no other field changes.
   */
  lemma BroadcastSpec(st: RoomState, m: OutMsg, failing: set<ClientId>, c: ClientId)
    ensures var r := AfterBroadcast(st, m, failing);
      && Sent(r.outbox, c) == (if c in st.connections && c !in failing then Sent(st.outbox, c) + [m] else Sent(st.outbox, c))
      && r.connections == st.connections - failing
      && r.(outbox := st.outbox, connections := st.connections) == st
  {
    DeliverSent(st.outbox, st.connections - failing, m, c);
  }

  /** `broadcast_to_players` only targets connections whose id is a key of `players`. */
  lemma BroadcastToPlayersSpec(st: RoomState, m: OutMsg, failing: set<ClientId>, c: ClientId)
    ensures var r := AfterBroadcastToPlayers(st, m, failing);
      && Sent(r.outbox, c) == (if c in st.connections && c in PlayerIds(st.players) && c !in failing
                               then Sent(st.outbox, c) + [m] else Sent(st.outbox, c))
      && r.connections == st.connections - (PlayerIds(st.players) * failing)
      && r.(outbox := st.outbox, connections := st.connections) == st
  {
    DeliverSent(st.outbox, st.connections * PlayerIds(st.players) - failing, m, c);
  }

  /** `send_to_organizer` forgets the organizer when its send fails; nothing else changes. */
  lemma SendToOrganizerSpec(st: RoomState, m: OutMsg, failing: set<ClientId>, c: ClientId)
    ensures var r := AfterSendToOrganizer(st, m, failing);
      && r.organizer == (if st.organizer.Some? && st.organizer.value in failing then None else st.organizer)
      && Sent(r.outbox, c) == (if st.organizer == Some(c) && c !in failing then Sent(st.outbox, c) + [m] else Sent(st.outbox, c))
      && r.(outbox := st.outbox, organizer := st.organizer) == st
  {
    if st.organizer.Some? {
      DeliverSent(st.outbox, {st.organizer.value}, m, c);
    }
  }

  /** Everything a broadcast delivers extends what was there before. */
  lemma BroadcastExtends(st: RoomState, m: OutMsg, failing: set<ClientId>, c: ClientId)
    ensures Sent(st.outbox, c) <= Sent(AfterBroadcast(st, m, failing).outbox, c)
  {
    BroadcastSpec(st, m, failing, c);
  }

  // ----- answers -----

  /** An ANSWER outside the QUESTION phase, or a repeated one, changes nothing. */
  lemma AnswerIgnored(quiz: Quiz, st: RoomState, c: ClientId, answer: Option<int>, now: int, failing: set<ClientId>)
    requires Inv(quiz, st)
    requires st.phase != Question || c in st.answered
    ensures AfterAnswer(quiz, st, c, answer, now, failing) == Step(st, None)
  {
  }

  /** Ending the question keeps `answered_players` and `players`. */
  lemma EndQuestionKeeps(quiz: Quiz, st: RoomState, failing: set<ClientId>)
    requires Inv(quiz, st) && 0 <= st.questionIndex < |quiz.questions|
    ensures var r := AfterEndQuestion(quiz, st, failing);
      && r.answered == st.answered && r.players == st.players && r.questionIndex == st.questionIndex
      && r.phase == Leaderboard && !r.timerRunning
  {
  }

  /**
   * An accepted ANSWER records the client in `answered_players` (even when it then raises),
   * so a second ANSWER from it in the same question changes nothing.
   */
  lemma SecondAnswerIgnored(quiz: Quiz, st: RoomState, c: ClientId, a1: Option<int>, a2: Option<int>,
                            now1: int, now2: int, f1: set<ClientId>, f2: set<ClientId>)
    requires Inv(quiz, st) && st.phase == Question && c !in st.answered
    ensures var r := AfterAnswer(quiz, st, c, a1, now1, f1);
      && c in r.room.answered
      && AfterAnswer(quiz, r.room, c, a2, now2, f2) == Step(r.room, None)
  {
    var r := AfterAnswer(quiz, st, c, a1, now1, f1);
    var st1 := st.(answered := st.answered + {c});
    var q := quiz.questions[st.questionIndex];
    if a1 == Some(q.answerIndex) && st.timeLimit != 0 && PlayerIndex(st.players, c).Some? {
      var k := PlayerIndex(st.players, c).value;
      var p := st.players[k];
      var st2 := st1.(players := st.players[k := p.(score := p.score + Points(now1 - st.questionStart, st.timeLimit))]);
      ReplyThenCheckKeepsAnswered(quiz, st2, c, AnswerResultMsg(true, Points(now1 - st.questionStart, st.timeLimit)), f1);
    } else if a1 != Some(q.answerIndex) {
      ReplyThenCheckKeepsAnswered(quiz, st1, c, AnswerResultMsg(false, 0), f1);
    }
    assert c in r.room.answered;
  }

  lemma ReplyThenCheckKeepsAnswered(quiz: Quiz, st: RoomState, c: ClientId, m: OutMsg, failing: set<ClientId>)
    requires Inv(quiz, st) && st.phase == Question
    ensures var r := AfterReplyAndCheck(quiz, st, c, m, failing);
      r.room.answered == st.answered && r.room.players == st.players
  {
  }

  /**
   * A correct ANSWER adds the time-based points to that player's score only; the points
   * are in [100, 1000] when the limit is positive and the clock has not gone back. The
   * client is then sent `ANSWER_RESULT(correct, points)` unless its connection is gone or
   * the send fails, and those two cases raise.
   */
  lemma CorrectAnswerScores(quiz: Quiz, st: RoomState, c: ClientId, now: int, failing: set<ClientId>, k: nat)
    requires Inv(quiz, st) && st.phase == Question && c !in st.answered
    requires st.timeLimit != 0 && PlayerIndex(st.players, c) == Some(k)
    ensures var points := Points(now - st.questionStart, st.timeLimit);
      var r := AfterAnswer(quiz, st, c, Some(quiz.questions[st.questionIndex].answerIndex), now, failing);
      && r.room.players == st.players[k := st.players[k].(score := st.players[k].score + points)]
      && (st.timeLimit > 0 && now >= st.questionStart ==> MinPoints <= points <= MaxPoints)
      && (r.fault.None? <==> c in st.connections && c !in failing)
      && (r.fault.None? ==> Sent(st.outbox, c) + [AnswerResultMsg(true, points)] <= Sent(r.room.outbox, c))
  {
    var points := Points(now - st.questionStart, st.timeLimit);
    if st.timeLimit > 0 && now >= st.questionStart {
      PointsInRange(now - st.questionStart, st.timeLimit);
    }
    var st1 := st.(answered := st.answered + {c});
    var st2 := st1.(players := st1.players[k := st1.players[k].(score := st1.players[k].score + points)]);
    var correct := Some(quiz.questions[st1.questionIndex].answerIndex);
    assert AfterAnswer(quiz, st, c, correct, now, failing) == AfterAccepted(quiz, st1, c, correct, now, failing);
    AcceptedCorrect(quiz, st1, c, correct, now, failing, k, points, st2);
    ReplyDelivers(quiz, st2, c, AnswerResultMsg(true, points), failing);
  }

  /** A wrong (or missing) answer is reported as 0 points and leaves every score unchanged. */
  lemma WrongAnswerScoresNothing(quiz: Quiz, st: RoomState, c: ClientId, answer: Option<int>, now: int, failing: set<ClientId>)
    requires Inv(quiz, st) && st.phase == Question && c !in st.answered
    requires answer != Some(quiz.questions[st.questionIndex].answerIndex)
    ensures var r := AfterAnswer(quiz, st, c, answer, now, failing);
      && r.room.players == st.players
      && (r.fault.None? <==> c in st.connections && c !in failing)
      && (r.fault.None? ==> Sent(st.outbox, c) + [AnswerResultMsg(false, 0)] <= Sent(r.room.outbox, c))
  {
    var st1 := st.(answered := st.answered + {c});
    AcceptedWrong(quiz, st1, c, answer, now, failing);
    ReplyDelivers(quiz, st1, c, AnswerResultMsg(false, 0), failing);
  }

  lemma ReplyDelivers(quiz: Quiz, st: RoomState, c: ClientId, m: OutMsg, failing: set<ClientId>)
    requires Inv(quiz, st) && st.phase == Question
    ensures var r := AfterReplyAndCheck(quiz, st, c, m, failing);
      && r.room.players == st.players
      && (r.fault.None? <==> c in st.connections && c !in failing)
      && (r.fault.None? ==> Sent(st.outbox, c) + [m] <= Sent(r.room.outbox, c))
      && (r.fault.None? ==> r.room.phase == (if |st.answered| >= |st.players| then Leaderboard else Question))
      && (r.room.phase == Leaderboard ==> !r.room.timerRunning)
  {
    var sent := AfterReply(st, c, m, failing);
    if sent.fault.None? {
      DeliverSent(st.outbox, {c}, m, c);
      if |sent.room.answered| >= |sent.room.players| {
        var st1 := sent.room.(timerRunning := false, phase := Leaderboard);
        var q := quiz.questions[st.questionIndex];
        var m2 := QuestionOverMsg(q.answerIndex, RankedLeaderboard(st1.players, st1.previousLeaderboard),
                                  st1.previousLeaderboard, st.questionIndex >= |quiz.questions| - 1);
        BroadcastExtends(st1, m2, failing, c);
      }
    }
  }

  /** A correct answer with a zero time limit, or from a client that never joined, raises. */
  lemma CorrectAnswerFaults(quiz: Quiz, st: RoomState, c: ClientId, now: int, failing: set<ClientId>)
    requires Inv(quiz, st) && st.phase == Question && c !in st.answered
    requires st.timeLimit == 0 || PlayerIndex(st.players, c).None?
    ensures var r := AfterAnswer(quiz, st, c, Some(quiz.questions[st.questionIndex].answerIndex), now, failing);
      && r.fault == Some(if st.timeLimit == 0 then ZeroTimeLimit else UnknownPlayer)
      && r.room == st.(answered := st.answered + {c})
  {
  }

  /**
   * After an accepted answer that raised nothing, the question ends (phase LEADERBOARD)
   * exactly when `answered_players` has at least as many ids as `players` has keys.
   */
  lemma AllAnsweredEndsQuestion(quiz: Quiz, st: RoomState, c: ClientId, answer: Option<int>, now: int, failing: set<ClientId>)
    requires Inv(quiz, st) && st.phase == Question && c !in st.answered
    ensures var r := AfterAnswer(quiz, st, c, answer, now, failing);
      r.fault.None? ==>
        && r.room.phase == (if |st.answered + {c}| >= |PlayerIds(st.players)| then Leaderboard else Question)
        && (r.room.phase == Leaderboard ==> !r.room.timerRunning)
  {
    DistinctIdsCount(st.players);
    var st1 := st.(answered := st.answered + {c});
    var q := quiz.questions[st.questionIndex];
    if answer == Some(q.answerIndex) {
      if st.timeLimit != 0 && PlayerIndex(st.players, c).Some? {
        var k := PlayerIndex(st.players, c).value;
        var p := st.players[k];
        var points := Points(now - st.questionStart, st.timeLimit);
        var st2 := st1.(players := st.players[k := p.(score := p.score + points)]);
        AcceptedCorrect(quiz, st1, c, answer, now, failing, k, points, st2);
        ReplyDelivers(quiz, st2, c, AnswerResultMsg(true, points), failing);
      }
    } else {
      AcceptedWrong(quiz, st1, c, answer, now, failing);
      ReplyDelivers(quiz, st1, c, AnswerResultMsg(false, 0), failing);
    }
  }

  // ----- joining -----

  /**
   * JOIN stores `{nickname, score: 0, prev_rank: 0}` under the client id, replacing any
   * earlier record for that id and keeping every other record where it was; the nickname
   * defaults to "Player k" with k the previous number of players plus one; and every live
   * connection is told the new number of players.
   */
  lemma JoinSpec(st: RoomState, c: ClientId, nickname: Option<string>, failing: set<ClientId>, d: ClientId)
    requires DistinctIds(st.players)
    ensures var nick := nickname.GetOr(DefaultNickname(|PlayerIds(st.players)|));
      var r := AfterJoin(st, c, nickname, failing);
      && DistinctIds(r.players)
      && PlayerIds(r.players) == PlayerIds(st.players) + {c}
      && PlayerIndex(r.players, c).Some?
      && r.players[PlayerIndex(r.players, c).value] == Player(c, nick, 0, 0)
      && (forall i :: 0 <= i < |st.players| && st.players[i].id != c ==> r.players[i] == st.players[i])
      && Sent(r.outbox, d) == (if d in st.connections && d !in failing
                               then Sent(st.outbox, d) + [PlayerJoinedMsg(nick, |PlayerIds(r.players)|)]
                               else Sent(st.outbox, d))
  {
    DistinctIdsCount(st.players);
    var nick := nickname.GetOr(DefaultNickname(|st.players|));
    var players := SetPlayer(st.players, Player(c, nick, 0, 0));
    SetPlayerSpec(st.players, Player(c, nick, 0, 0));
    DistinctIdsCount(players);
    BroadcastSpec(st.(players := players), PlayerJoinedMsg(nick, |players|), failing, d);
  }

  /**
   * Assigning `room.players[id]`: the record lands under its id, replacing the earlier one
   * in place or appended at the end, and every other record keeps its position.
   */
  lemma SetPlayerSpec(players: seq<Player>, p: Player)
    requires DistinctIds(players)
    ensures var r := SetPlayer(players, p);
      && DistinctIds(r)
      && PlayerIds(r) == PlayerIds(players) + {p.id}
      && PlayerIndex(r, p.id).Some? && r[PlayerIndex(r, p.id).value] == p
      && |r| == |players| + (if p.id in PlayerIds(players) then 0 else 1)
      && (forall i :: 0 <= i < |players| && players[i].id != p.id ==> r[i] == players[i])
  {
    var r := SetPlayer(players, p);
    PlayerIdsMember(players, p.id);
    match PlayerIndex(players, p.id)
    case Some(k) =>
      assert r == players[k := p];
      forall id | id in PlayerIds(r) ensures id in PlayerIds(players) + {p.id} {
        var q :| q in r && q.id == id;
        var i :| 0 <= i < |r| && r[i] == q;
        if i != k { assert players[i] == q; }
      }
      forall id | id in PlayerIds(players) ensures id in PlayerIds(r) {
        var q :| q in players && q.id == id;
        var i :| 0 <= i < |players| && players[i] == q;
        assert r[i].id == id;
        assert r[i] in r;
      }
      assert r[k] in r;
    case None =>
      assert r == players + [p];
      forall id | id in PlayerIds(r) ensures id in PlayerIds(players) + {p.id} {
        var q :| q in r && q.id == id;
        var i :| 0 <= i < |r| && r[i] == q;
        if i < |players| { assert players[i] == q; }
      }
      assert r[|players|] == p;
      assert r[|players|] in r;
    PlayerIdsMember(r, p.id);
  }

  // ----- the question lifecycle -----

  /**
   * NEXT_QUESTION past the last question: the room goes to PODIUM, stops the timer and
   * broadcasts the final leaderboard, touching nothing else of the game.
   */
  lemma StartQuestionPodium(quiz: Quiz, st: RoomState, now: int, failing: set<ClientId>, d: ClientId)
    requires Inv(quiz, st) && st.questionIndex + 1 >= |quiz.questions|
    ensures var r := AfterStartQuestion(quiz, st, now, failing);
      && r.questionIndex == st.questionIndex + 1
      && r.phase == Podium && !r.timerRunning
      && r.players == st.players && r.timeLimit == st.timeLimit && r.organizer == st.organizer
      && r.answered == st.answered && r.previousLeaderboard == st.previousLeaderboard
      && r.questionStart == st.questionStart
      && r.connections == st.connections - failing
      && Sent(r.outbox, d) == (if d in st.connections && d !in failing
                               then Sent(st.outbox, d) + [PodiumMsg(Ranking(st.players))] else Sent(st.outbox, d))
  {
    var st1 := st.(timerRunning := false, questionIndex := st.questionIndex + 1);
    BroadcastSpec(st1.(phase := Podium), PodiumMsg(Ranking(st.players)), failing, d);
  }

  /**
   * NEXT_QUESTION with a question left: it snapshots the pre-question leaderboard, enters
   * QUESTION with an empty `answered_players`, starts the timer and broadcasts the question
   * without its answer, numbered from 1.
   */
  lemma StartQuestionNext(quiz: Quiz, st: RoomState, now: int, failing: set<ClientId>, d: ClientId)
    requires Inv(quiz, st) && st.questionIndex + 1 < |quiz.questions|
    ensures var r := AfterStartQuestion(quiz, st, now, failing);
      var q := quiz.questions[r.questionIndex];
      && r.questionIndex == st.questionIndex + 1
      && r.phase == Question && r.timerRunning && r.answered == {}
      && r.players == st.players && r.timeLimit == st.timeLimit && r.organizer == st.organizer
      && r.previousLeaderboard == Ranking(st.players) && r.questionStart == now
      && r.connections == st.connections - failing
      && Sent(r.outbox, d) == (if d in st.connections && d !in failing
                               then Sent(st.outbox, d) + [QuestionMsg(Redact(q), r.questionIndex + 1, |quiz.questions|, st.timeLimit)]
                               else Sent(st.outbox, d))
  {
    var index := st.questionIndex + 1;
    var st1 := st.(timerRunning := false, questionIndex := index);
    var st2 := st1.(previousLeaderboard := Ranking(st.players), phase := Question, questionStart := now, answered := {});
    var m := QuestionAnnouncement(quiz, index, st.timeLimit);
    assert m == QuestionMsg(Redact(quiz.questions[index]), index + 1, |quiz.questions|, st.timeLimit);
    BroadcastSpec(st2, m, failing, d);
    assert AfterStartQuestion(quiz, st, now, failing) == AfterBroadcast(st2, m, failing).(timerRunning := true);
  }

  /** Whether QUESTION_OVER reports the question as final. */
  function FinalFlag(quiz: Quiz, st: RoomState): bool {
    st.questionIndex >= |quiz.questions| - 1
  }

  /**
   * `end_question` stops the timer, enters LEADERBOARD, and broadcasts the answer, the
   * leaderboard with rank changes and the previous snapshot; `is_final` is set exactly
   * when the next NEXT_QUESTION will go to the podium.
   */
  lemma EndQuestionSpec(quiz: Quiz, st: RoomState, failing: set<ClientId>, d: ClientId, now: int, f2: set<ClientId>)
    requires Inv(quiz, st) && 0 <= st.questionIndex < |quiz.questions|
    ensures var r := AfterEndQuestion(quiz, st, failing);
      && r.phase == Leaderboard && !r.timerRunning
      && r.players == st.players && r.answered == st.answered && r.questionIndex == st.questionIndex
      && Sent(r.outbox, d) == (if d in st.connections && d !in failing
           then Sent(st.outbox, d) + [QuestionOverMsg(quiz.questions[st.questionIndex].answerIndex,
                                                      RankedLeaderboard(st.players, st.previousLeaderboard),
                                                      st.previousLeaderboard, FinalFlag(quiz, st))]
           else Sent(st.outbox, d))
      && (FinalFlag(quiz, st) <==> AfterStartQuestion(quiz, r, now, f2).phase == Podium)
  {
    var st1 := st.(timerRunning := false, phase := Leaderboard);
    var q := quiz.questions[st.questionIndex];
    var m := QuestionOverMsg(q.answerIndex, RankedLeaderboard(st.players, st.previousLeaderboard),
                             st.previousLeaderboard, FinalFlag(quiz, st));
    BroadcastSpec(st1, m, failing, d);
  }

  /** The timer's expiry does nothing once the room has left QUESTION. */
  lemma TimerExpiryGuard(quiz: Quiz, st: RoomState, failing: set<ClientId>)
    requires Inv(quiz, st) && st.phase != Question
    ensures AfterTimerExpired(quiz, st, failing) == st
  {
  }

  /**
   * Whichever of "all answered" and the timer ends the question first, the other one's
   * expiry is a no-op: no second QUESTION_OVER, no state change.
   */
  lemma EndQuestionOnce(quiz: Quiz, st: RoomState, f1: set<ClientId>, f2: set<ClientId>)
    requires Inv(quiz, st) && 0 <= st.questionIndex < |quiz.questions|
    ensures AfterTimerExpired(quiz, AfterEndQuestion(quiz, st, f1), f2) == AfterEndQuestion(quiz, st, f1)
  {
  }

  /** The TIMER messages of a countdown from `n` are `n, n - 1, ..., 1`. */
  lemma {:induction false} CountdownShape(n: int)
    ensures |Countdown(n)| == if n > 0 then n else 0
    ensures forall k :: 0 <= k < |Countdown(n)| ==> Countdown(n)[k] == TimerMsg(n - k)
  {
    if n > 0 {
      CountdownShape(n - 1);
    }
  }

  /**
   * The countdown delivers the whole sequence of ticks to every connection that does not
   * fail and drops the failing ones (every other field is kept, as `AfterTicks` states).
   */
  lemma {:induction false} TicksDelivered(st: RoomState, n: int, failing: set<ClientId>, c: ClientId)
    ensures Sent(AfterTicks(st, n, failing).outbox, c)
         == (if c in st.connections && c !in failing then Sent(st.outbox, c) + Countdown(n) else Sent(st.outbox, c))
    decreases n
  {
    if n > 0 {
      var st1 := TickStep(st, n, failing, c);
      TicksDelivered(st1, n - 1, failing, c);
      if c in st.connections && c !in failing {
        CountdownCons(Sent(st.outbox, c), n);
      }
    }
  }

  /** One tick: the TIMER message goes to every live connection and the failing ones are dropped. */
  lemma TickStep(st: RoomState, n: int, failing: set<ClientId>, c: ClientId) returns (st1: RoomState)
    requires n > 0
    ensures AfterTicks(st, n, failing) == AfterTicks(st1, n - 1, failing)
    ensures (c in st1.connections && c !in failing) == (c in st.connections && c !in failing)
    ensures Sent(st1.outbox, c) == if c in st.connections && c !in failing then Sent(st.outbox, c) + [TimerMsg(n)] else Sent(st.outbox, c)
  {
    st1 := AfterBroadcast(st, TimerMsg(n), failing);
    BroadcastSpec(st, TimerMsg(n), failing, c);
  }

  lemma CountdownCons(before: seq<OutMsg>, n: int)
    requires n > 0
    ensures before + [TimerMsg(n)] + Countdown(n - 1) == before + Countdown(n)
  {
    assert Countdown(n) == [TimerMsg(n)] + Countdown(n - 1);
  }

  /** A countdown of at least one tick leaves exactly the connections that did not fail. */
  lemma {:induction false} TicksDropFailing(st: RoomState, n: int, failing: set<ClientId>)
    ensures AfterTicks(st, n, failing).connections == (if n > 0 then st.connections - failing else st.connections)
    decreases n
  {
    if n > 0 {
      var st1 := AfterBroadcast(st, TimerMsg(n), failing);
      assert AfterTicks(st, n, failing) == AfterTicks(st1, n - 1, failing);
      TicksDropFailing(st1, n - 1, failing);
      assert st1.connections - failing == st.connections - failing;
    }
  }

  /** A lost connection leaves `players` (and `answered_players`) as they were. */
  lemma ConnectionLostKeepsPlayer(st: RoomState, c: ClientId, isOrganizer: bool)
    ensures var r := AfterConnectionLost(st, c, isOrganizer);
      && r.players == st.players && r.answered == st.answered
      && r.connections == st.connections - {c}
      && (isOrganizer ==> r.organizer == None)
  {
  }

  /**
   * However the receive loop ends (the client goes away or a handler raises), the
   * connection is removed afterwards, and an organizer's session leaves the room without
   * an organizer.
   */
  lemma {:induction false} SessionCleansUp(quiz: Quiz, st: RoomState, c: ClientId, isOrganizer: bool,
                                           inbox: seq<InMsg>, clock: seq<int>, failing: set<ClientId>)
    requires Inv(quiz, st) && |clock| == |inbox|
    ensures var r := AfterSession(quiz, st, c, isOrganizer, inbox, clock, failing);
      c !in r.connections && (isOrganizer ==> r.organizer == None)
    decreases |inbox|
  {
    if inbox != [] {
      var s := AfterMessage(quiz, st, c, isOrganizer, inbox[0], clock[0], failing);
      if s.fault.None? {
        SessionCleansUp(quiz, s.room, c, isOrganizer, inbox[1..], clock[1..], failing);
      }
    }
  }
}
