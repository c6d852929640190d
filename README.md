# Quiz rooms and quiz generation, modelled in Dafny

This project models the core of a live quiz game server. It has two parts.

- **Room server** (`backend/socket_manager.py`). An organizer creates a room for a
  generated quiz, and players join it over websockets. The organizer starts the game and
  moves from question to question. Each question is broadcast to every connection without
  its answer, followed by a countdown of `TIMER` messages. Players answer, and a correct
  answer scores between 100 and 1000 points depending on how fast it came. A question ends
  when every player has answered or when the timer expires, whichever comes first. Ending
  it broadcasts the correct answer and the leaderboard with rank changes. After the last
  question comes the podium.
- **Quiz generation** (`backend/quiz_engine.py`).
  - The system prompt is built from a difficulty and a question count.
  - The user's topic is wrapped in boundary markers.
  - The LLM's JSON reply is validated and then sanitised: tags, control characters and
    surrounding whitespace are removed, and each text field is cut to its length limit.
  - A per-day counter caps how many quizzes are generated.

## How the model is built

- `Room` is a Dafny `class` with the fields of the Python object. Each handler is a
  `method` that updates those fields in place.
- Each method is proved to leave `View()`, the tuple of all its fields, equal to a pure
  function of the old state. That function lives in module `RoomSpec`.
- The promises of the source are proved as lemmas about those functions, in module
  `RoomProperties`.
- A websocket is identified with the client id it connected under.
- The set `failing` names the connections whose `send_json` raises.
- Each connection's `outbox` holds every message sent to it, in order.
- An exception escaping `handle_message` is a `Fault` result:
  - a `KeyError` on `players` or `connections`;
  - a `ZeroDivisionError` when the time limit is 0;
  - a failed direct send.

  The `except` branch of `connect` then cleans up.
- Quiz generation is modelled mostly as functions, because it is mostly pure.
  - The loops of `_validate_quiz`, `_sanitize_quiz` and `get_leaderboard_with_changes` are
    methods with invariants, each proved equal to its specifying function.
  - `QuizEngine` is a class whose two counter fields are updated in place.
  - LLM providers are an oracle: the call receives the reply the provider would give.
- Time is given as integer ticks, passed in as a parameter.
- A correct answer earns `100 + floor(900 * max(0, 1 - elapsed/limit))`, computed
  exactly on rationals.
  - `SET_TIME_LIMIT` stores any integer. With a negative limit, a correct answer never
    earns less than 1000 points, and it earns more than 1000 once `900 * elapsed` reaches
    the limit's magnitude (for example 1900 points at 15 ticks with limit -15).
  - A limit of 0 makes a correct answer raise.

## Model

| member | source | states |
|---|---|---|
| Scoring.PointsInRange | backend/socket_manager.py:121-124 | with a positive limit and a clock that has not gone back, a correct answer earns between 100 and 1000 points |
| Scoring.InstantAnswerEarnsMax | backend/socket_manager.py:121-124 | an answer at elapsed time 0 earns exactly 1000 |
| Scoring.LateAnswerEarnsMin | backend/socket_manager.py:121-124 | an answer at or after the deadline earns exactly 100 (the `max(0, …)` clamp) |
| Scoring.PointsNonIncreasing | backend/socket_manager.py:121-124 | answering later never earns more points |
| Scoring.Points | backend/socket_manager.py:121-124 | none of its own; its range and monotonicity are the lemmas below |
| Scoring.NegativeLimitAtLeastMax | backend/socket_manager.py:101-102 | with a negative limit, which SET_TIME_LIMIT accepts, a correct answer at any non-negative elapsed time earns at least 1000 |
| Scoring.NegativeLimitExceedsMax | backend/socket_manager.py:101-102 | with a negative limit, once `900 * elapsed` reaches the limit's magnitude, a correct answer earns more than the 1000 maximum |
| Scoring.NegativeLimitExample | backend/socket_manager.py:101-124 | 15 ticks into a question with limit -15 earns 1900 points |
| Leaderboards.SortByScore | backend/socket_manager.py:217-221 | none of its own; see SortedAndPermutes and SortIsStable |
| Leaderboards.Ranking | backend/socket_manager.py:216-222 | none of its own; see RankingSpec |
| Leaderboards.RankedLeaderboard | backend/socket_manager.py:224-244 | none of its own; see RankedLeaderboardSpec |
| Leaderboards.Standings | backend/socket_manager.py:222 | one `{nickname, score}` entry per player, in dict order |
| Leaderboards.SortedAndPermutes | backend/socket_manager.py:216-221 | the sort yields a non-increasing order of scores and a permutation of its input |
| Leaderboards.SortIsStable | backend/socket_manager.py:216-221 | for every score, tied entries keep their input order, as Python's `sorted` does |
| Leaderboards.RankingSpec | backend/socket_manager.py:216-222 | `get_leaderboard` lists every player exactly once, by non-increasing score, with ties in insertion order |
| Leaderboards.PrevRankingsLast | backend/socket_manager.py:226 | the dict comprehension maps each nickname in the snapshot to its last position there, and nothing else |
| Leaderboards.RankedLeaderboardSpec | backend/socket_manager.py:224-244 | entry i has the i-th ranked nickname and score. `prev_rank` is the nickname's last position in the previous snapshot, or i when it is absent. `rank_change` is `prev_rank - i` |
| Leaderboards.LeaderboardWithChanges | backend/socket_manager.py:224-244 | the enumerate loop builds exactly the ranked leaderboard |
| Numerals.NatToStringRoundTrip | backend/quiz_engine.py:50-51 | `str(n)` is a non-empty digit string without a leading zero that reads back as n |
| Numerals.NatToStringInjective | backend/quiz_engine.py:50-51 | different counts render differently |
| Numerals.IntToStringReadBack | backend/quiz_engine.py:50-51 | a rendered integer followed by a non-digit reads back as the same integer |
| RoomSpec.PlayerIndex | backend/socket_manager.py:12 | the index found holds the id, and no index is found exactly when the id is not a key |
| RoomSpec.SetPlayer | backend/socket_manager.py:107 | none of its own; see RoomProperties.SetPlayerSpec |
| RoomSpec.DefaultNickname | backend/socket_manager.py:106 | none of its own; "Player " followed by the player count plus one (see RoomProperties.JoinSpec) |
| RoomSpec.Redact | backend/socket_manager.py:167 | none of its own; the question without its answer index (a fixed record, see "Left out") |
| RoomSpec.AfterBroadcast | backend/socket_manager.py:22-30 | none of its own; see RoomProperties.BroadcastSpec |
| RoomSpec.AfterBroadcastToPlayers | backend/socket_manager.py:32-42 | none of its own; see RoomProperties.BroadcastToPlayersSpec |
| RoomSpec.AfterSendToOrganizer | backend/socket_manager.py:44-49 | none of its own; see RoomProperties.SendToOrganizerSpec |
| RoomSpec.AfterReply | backend/socket_manager.py:128-138 | none of its own; see RoomProperties.ReplyDelivers |
| RoomSpec.AfterStartQuestion | backend/socket_manager.py:144-178 | keeps the room invariant; see RoomProperties.StartQuestionPodium and StartQuestionNext |
| RoomSpec.AfterOpenQuestion | backend/socket_manager.py:160-178 | keeps the room invariant; see RoomProperties.StartQuestionNext |
| RoomSpec.QuestionAnnouncement | backend/socket_manager.py:166-175 | none of its own; see RoomProperties.StartQuestionNext |
| RoomSpec.AfterEndQuestion | backend/socket_manager.py:194-214 | keeps the room invariant; see RoomProperties.EndQuestionSpec |
| RoomSpec.AfterTimerExpired | backend/socket_manager.py:188-190 | keeps the room invariant; see RoomProperties.TimerExpiryGuard and EndQuestionOnce |
| RoomSpec.AfterTicks | backend/socket_manager.py:184-186 | the countdown changes only the outboxes and the connections; see RoomProperties.TicksDelivered and TicksDropFailing |
| RoomSpec.Countdown | backend/socket_manager.py:184-185 | none of its own; see RoomProperties.CountdownShape |
| RoomSpec.AfterJoin | backend/socket_manager.py:105-112 | none of its own; see RoomProperties.JoinSpec |
| RoomSpec.AfterReplyAndCheck | backend/socket_manager.py:128-142 | keeps the room invariant; see RoomProperties.ReplyDelivers |
| RoomSpec.AfterAnswer | backend/socket_manager.py:114-142 | keeps the room invariant; see RoomProperties.AnswerIgnored, SecondAnswerIgnored, CorrectAnswerScores, WrongAnswerScoresNothing, CorrectAnswerFaults and AllAnsweredEndsQuestion |
| RoomSpec.AfterAccepted | backend/socket_manager.py:116-142 | keeps the room invariant; see AcceptedCorrect, AcceptedFaults and AcceptedWrong |
| RoomSpec.AfterMessage | backend/socket_manager.py:90-142 | keeps the room invariant for every message |
| RoomSpec.AfterConnectionLost | backend/socket_manager.py:82-88 | none of its own; see RoomProperties.ConnectionLostKeepsPlayer |
| RoomSpec.AfterConnect | backend/socket_manager.py:68-75 | none of its own; the state `Room.Register` is proved to reach |
| RoomSpec.AfterSession | backend/socket_manager.py:77-88 | keeps the room invariant; see RoomProperties.SessionCleansUp |
| RoomSpec.DeliverSent | backend/socket_manager.py:22-30 | delivering appends the message to each target's outbox, and only to the targets' outboxes |
| RoomSpec.AcceptedCorrect | backend/socket_manager.py:120-132 | a correct answer from a known player adds the points to that player's record, keeps the invariant, then replies and checks for the end of the question |
| RoomSpec.AcceptedFaults | backend/socket_manager.py:122-125 | a correct answer raises when the time limit is zero or the client never joined, and only the answered set has changed |
| RoomSpec.AcceptedWrong | backend/socket_manager.py:133-138 | a wrong answer changes no score and replies `ANSWER_RESULT(false, 0)` |
| RoomProperties.DistinctIdsCount | backend/socket_manager.py:111 | `len(room.players)` (the number of keys) is the length of the player list |
| RoomProperties.PlayerIdsMember | backend/socket_manager.py:36 | `client_id in room.players` holds exactly when a record with that id exists |
| RoomProperties.BroadcastSpec | backend/socket_manager.py:22-30 | `broadcast` appends the message to each connection whose send succeeds, removes exactly the failed connections, and changes nothing else |
| RoomProperties.BroadcastToPlayersSpec | backend/socket_manager.py:32-42 | only connections whose id is a player are sent to, and only failed player connections are removed |
| RoomProperties.SendToOrganizerSpec | backend/socket_manager.py:44-49 | the organizer gets the message, or is forgotten when the send fails, and nothing else changes |
| RoomProperties.BroadcastExtends | backend/socket_manager.py:22-30 | a broadcast never takes back a message already sent |
| RoomProperties.AnswerIgnored | backend/socket_manager.py:114-115 | an ANSWER outside QUESTION, or a second one from the same client, changes nothing |
| RoomProperties.SecondAnswerIgnored | backend/socket_manager.py:115-116 | the first ANSWER records the client even when it then raises, so a second ANSWER in the same question is ignored |
| RoomProperties.CorrectAnswerScores | backend/socket_manager.py:120-132 | a correct answer adds the time-based points to that player only, and the points lie in [100, 1000]. The reply is delivered exactly when the client's connection is live and its send succeeds. Otherwise the answer raises |
| RoomProperties.WrongAnswerScoresNothing | backend/socket_manager.py:133-138 | a wrong or missing answer leaves every score unchanged and replies `ANSWER_RESULT(false, 0)`, or raises when that send cannot be made |
| RoomProperties.CorrectAnswerFaults | backend/socket_manager.py:122-125 | with a zero time limit (division by zero) or an unknown player (KeyError), a correct answer raises, and only `answered_players` has changed |
| RoomProperties.ReplyDelivers | backend/socket_manager.py:128-142 | the reply is delivered or raises. When it succeeds, the question ends exactly when everyone has answered |
| RoomProperties.AllAnsweredEndsQuestion | backend/socket_manager.py:140-142 | after an answer that raised nothing, the room is in LEADERBOARD with the timer stopped exactly when `answered_players` has at least as many ids as `players` has keys |
| RoomProperties.SetPlayerSpec | backend/socket_manager.py:107 | assigning `room.players[id]` replaces an existing record in place or appends a new one, and every other record keeps its position |
| RoomProperties.JoinSpec | backend/socket_manager.py:105-112 | JOIN stores `{nickname, 0, 0}` under the client id. The nickname defaults to "Player k". Every live connection is told the new player count |
| RoomProperties.StartQuestionPodium | backend/socket_manager.py:144-157 | past the last question, the room goes to PODIUM, stops the timer and broadcasts the final leaderboard, touching nothing else of the game |
| RoomProperties.StartQuestionNext | backend/socket_manager.py:144-178 | otherwise it snapshots the leaderboard, enters QUESTION with no answers and starts the timer. It broadcasts the question without its answer, numbered from 1 with the total count and the time limit |
| RoomProperties.EndQuestionKeeps | backend/socket_manager.py:194-214 | ending a question keeps the players, the answered set and the question index, and leaves LEADERBOARD with the timer stopped |
| RoomProperties.EndQuestionSpec | backend/socket_manager.py:194-214 | `end_question` broadcasts the answer, the leaderboard with changes and the previous snapshot. `is_final` holds exactly when the next NEXT_QUESTION goes to the podium |
| RoomProperties.TimerExpiryGuard | backend/socket_manager.py:188-190 | the timer's expiry does nothing once the room has left QUESTION |
| RoomProperties.EndQuestionOnce | backend/socket_manager.py:188-199 | whether all players answered or the timer ran out, QUESTION_OVER is sent once and the state changes once |
| RoomProperties.CountdownShape | backend/socket_manager.py:184-185 | the countdown is `TIMER` n, n-1, …, 1 (nothing for a limit of 0 or less) |
| RoomProperties.TicksDelivered | backend/socket_manager.py:184-186 | every connection that does not fail receives the whole countdown in order |
| RoomProperties.TicksDropFailing | backend/socket_manager.py:184-186 | a countdown of at least one tick leaves exactly the connections that did not fail |
| RoomProperties.ConnectionLostKeepsPlayer | backend/socket_manager.py:82-88 | a lost connection is removed, an organizer is forgotten, and the player's record and answers stay |
| RoomProperties.SessionCleansUp | backend/socket_manager.py:77-88 | however the receive loop ends, the connection is removed afterwards, and an organizer's session leaves no organizer |
| SocketManager.Room.constructor | backend/socket_manager.py:8-20 | a new room is in LOBBY at index -1 with no players, connections, organizer or answers |
| SocketManager.Room.Broadcast | backend/socket_manager.py:22-30 | the room ends in the state `AfterBroadcast` gives |
| SocketManager.Room.SendEach | backend/socket_manager.py:24-28 | the send loop delivers to every target that does not fail and collects exactly the failing ones |
| SocketManager.Room.DropAll | backend/socket_manager.py:29-30 | the delete loop removes exactly the collected ids |
| SocketManager.Room.BroadcastToPlayers | backend/socket_manager.py:32-42 | the room ends in the state `AfterBroadcastToPlayers` gives |
| SocketManager.Room.SendToOrganizer | backend/socket_manager.py:44-49 | the room ends in the state `AfterSendToOrganizer` gives |
| SocketManager.Room.StartQuestion | backend/socket_manager.py:144-178 | the room ends in the state `AfterStartQuestion` gives (see StartQuestionPodium and StartQuestionNext), and the invariant is kept |
| SocketManager.Room.OpenQuestion | backend/socket_manager.py:160-178 | the room ends in the state `AfterOpenQuestion` gives, and the invariant is kept |
| SocketManager.Room.EndQuestion | backend/socket_manager.py:194-214 | the room ends in the state `AfterEndQuestion` gives, and the invariant is kept |
| SocketManager.Room.TimerExpired | backend/socket_manager.py:188-190 | the room ends in the state `AfterTimerExpired` gives: the question is ended only while the room is in QUESTION |
| SocketManager.Room.QuestionTimer | backend/socket_manager.py:180-192 | the room ends in the state left by the whole countdown followed by the guarded expiry |
| SocketManager.Room.Join | backend/socket_manager.py:105-112 | the room ends in the state `AfterJoin` gives (see JoinSpec) |
| SocketManager.Room.Answer | backend/socket_manager.py:114-142 | the room ends in the state `AfterAnswer` gives, and a fault is returned where the source raises |
| SocketManager.Room.ScoreAnswer | backend/socket_manager.py:117-142 | the room ends in the state `AfterAccepted` gives, and the invariant is kept |
| SocketManager.Room.Reply | backend/socket_manager.py:128-138 | the room ends in the state `AfterReply` gives: a missing connection or a failed send is a fault |
| SocketManager.Room.ReplyAndCheck | backend/socket_manager.py:128-142 | the room ends in the state `AfterReplyAndCheck` gives, and the invariant is kept |
| SocketManager.Room.HandleMessage | backend/socket_manager.py:90-142 | organizer messages and player messages are dispatched as `AfterMessage` states. Unknown types are ignored, and the invariant is kept |
| SocketManager.Room.Register | backend/socket_manager.py:68-75 | the connection is registered (the organizer too) and greeted with ROOM_CREATED or JOINED_ROOM. A failed greeting is a fault |
| SocketManager.Room.Session | backend/socket_manager.py:77-88 | messages are handled in order until one raises or they run out, and the connection is then cleaned up |
| SocketManager.Room.ConnectionLost | backend/socket_manager.py:82-88 | the room ends in the state `AfterConnectionLost` gives |
| SocketManager.SocketManager.constructor | backend/socket_manager.py:53-54 | a new manager has no rooms |
| SocketManager.SocketManager.CreateRoom | backend/socket_manager.py:56-59 | a fresh room in its initial state is stored under the code, replacing any earlier one |
| SocketManager.SocketManager.Connect | backend/socket_manager.py:61-88 | an unknown code is answered with ERROR "Room not found" and no room changes. Otherwise the connection is registered and greeted, then runs its session |
| Sanitizer.FirstGt | backend/quiz_engine.py:59 | the first `>`, and none before it |
| Sanitizer.StripTags | backend/quiz_engine.py:59 | none of its own; see the StripTags lemmas |
| Sanitizer.StripTagsKeepsText | backend/quiz_engine.py:59 | text before the first `<` is kept unchanged |
| Sanitizer.StripTagsDropsTag | backend/quiz_engine.py:59 | a complete `<...>` span with at least one character inside is removed and nothing else is |
| Sanitizer.StripTagsTagFree | backend/quiz_engine.py:59 | after tag removal no `<[^>]+>` span is left |
| Sanitizer.StripTagsFixesTagFree | backend/quiz_engine.py:59 | text without tags is left unchanged |
| Sanitizer.RemoveControls | backend/quiz_engine.py:60 | the result has no control character of the class and is no longer than the input |
| Sanitizer.RemoveControlsConcat | backend/quiz_engine.py:60 | removal works character by character: it distributes over concatenation |
| Sanitizer.RemoveControlsOne | backend/quiz_engine.py:60 | a single character is dropped exactly when it is in the class, and kept otherwise |
| Sanitizer.RemoveControlsKeepsTagFree | backend/quiz_engine.py:60 | removing control characters cannot create a tag |
| Sanitizer.TrimLeft | backend/quiz_engine.py:61 | exactly the leading whitespace is dropped |
| Sanitizer.TrimRight | backend/quiz_engine.py:61 | exactly the trailing whitespace is dropped |
| Sanitizer.SanitizeText | backend/quiz_engine.py:57-61 | none of its own; see the SanitizeText lemmas |
| Sanitizer.SanitizeTextKeepsPlainText | backend/quiz_engine.py:57-61 | text with no `<` and no control character loses only its surrounding whitespace |
| Sanitizer.SanitizeTextClean | backend/quiz_engine.py:57-61 | sanitised text has no control character, no tag and no surrounding whitespace |
| Sanitizer.SanitizeTextFixesClean | backend/quiz_engine.py:57-61 | text that is already clean comes back unchanged |
| Sanitizer.SanitizeTextIdempotent | backend/quiz_engine.py:57-61 | sanitising twice is sanitising once |
| Sanitizer.Truncate | backend/quiz_engine.py:73 | `s[:n]` is the prefix of s of length n, or s itself when it is shorter |
| Sanitizer.TruncatedStaysClean | backend/quiz_engine.py:73-80 | cut sanitised text stays within the limit, with no controls, no tags and no leading whitespace |
| Sanitizer.TruncationCanEndInSpace | backend/quiz_engine.py:73-80 | the cut can reintroduce trailing whitespace ("a b" cut to 2 characters) |
| Prompts.WrapUserTopic | backend/quiz_engine.py:43-45 | none of its own; see UnwrapAfterWrap, WrapAfterUnwrap and WrapInjective |
| Prompts.UnwrapAfterWrap | backend/quiz_engine.py:43-45 | the topic between the boundary markers reads back exactly |
| Prompts.WrapAfterUnwrap | backend/quiz_engine.py:43-45 | anything that unwraps is exactly the wrapping of its content |
| Prompts.WrapInjective | backend/quiz_engine.py:43-45 | different topics are wrapped differently |
| Prompts.DifficultyText | backend/quiz_engine.py:36-40 | none of its own; see DifficultyFallback |
| Prompts.DifficultyFallback | backend/quiz_engine.py:49 | an unknown difficulty gets the "medium" instruction |
| Prompts.Upper | backend/quiz_engine.py:52 | upper-casing maps each ASCII lower-case letter to its capital and keeps everything else |
| Prompts.UpperIsUpper | backend/quiz_engine.py:52 | upper-cased text has no lower-case letter, and upper-casing is idempotent |
| Prompts.FillTemplate | backend/quiz_engine.py:50-54 | none of its own; see FillTemplateLayout |
| Prompts.BuildPrompt | backend/quiz_engine.py:48-54 | none of its own; see PromptStatesCount and PromptEndsWithGuard |
| Prompts.BuildSystemPrompt | backend/quiz_engine.py:48-54 | none of its own; see SystemPromptStatesCount and SystemPromptEndsWithGuard |
| Prompts.FillTemplateLayout | backend/quiz_engine.py:13-15 | the filled `Difficulty:` line carries the given label, " - " and the given instruction at their places |
| Prompts.SystemPromptDelimited | backend/quiz_engine.py:14 | the count in the template is followed by '-', which is not a digit |
| Prompts.PromptStatesCount | backend/quiz_engine.py:48-54 | a prompt from a template whose count is delimited reads back the requested number of questions |
| Prompts.SystemPromptStatesCount | backend/quiz_engine.py:13-54 | the system prompt asks for exactly the requested number of questions |
| Prompts.PromptEndsWithGuard | backend/quiz_engine.py:48-54 | every built prompt ends with its template's closing paragraph |
| Prompts.SystemPromptEndsWithGuard | backend/quiz_engine.py:13-54 | the system prompt ends with the instruction to treat the topic as subject matter only |
| QuizData.CheckQuestion | backend/quiz_engine.py:95-104 | a question is accepted exactly when it is well formed (the four keys, 2 or 4 options, an int answer index in range) |
| QuizData.FirstFailureAccepts | backend/quiz_engine.py:95-105 | the loop accepts exactly when every question is well formed |
| QuizData.QuizVerdict | backend/quiz_engine.py:84-105 | none of its own; see QuizVerdictSpec |
| QuizData.QuizVerdictSpec | backend/quiz_engine.py:84-105 | `_validate_quiz` accepts exactly the dicts with a non-empty list of well-formed questions |
| QuizData.ListQuestionRaises | backend/quiz_engine.py:96-99 | a question that is a list of the four key names passes the key test and then raises |
| QuizData.ValidateQuiz | backend/quiz_engine.py:84-105 | the loop returns the verdict of the first bad question, and accepts exactly the well-formed quizzes |
| QuizData.CleanFieldSpec | backend/quiz_engine.py:73 | a text field is rewritten exactly when it is a string. The new value is `_sanitize_text(v)[:limit]` of the old one, which is clean and within the limit |
| QuizData.CleanOptionsSpec | backend/quiz_engine.py:78 | the options are rewritten exactly when all are strings. Their number is kept, and option i becomes `_sanitize_text(options[i])[:500]`, clean and within 500 characters |
| QuizData.CleanKeySpec | backend/quiz_engine.py:72-80 | `if key in d` fails exactly on a non-string value. Otherwise the keys are kept, every other value is unchanged, and the key's value becomes `_sanitize_text(d[key])[:limit]` |
| QuizData.CleanOptionsKeySpec | backend/quiz_engine.py:77-78 | rewriting `options` fails exactly when an option is not a string. Otherwise every other key is kept, and the list keeps its length with option j replaced by `_sanitize_text(options[j])[:500]` |
| QuizData.CleanQuestion | backend/quiz_engine.py:75-80 | none of its own; see CleanQuestionSpec |
| QuizData.CleanQuestionSpec | backend/quiz_engine.py:74-80 | one question is sanitised exactly when its text fields are strings. It keeps every key and every other field (`id`, `answer_index`, ...). `text`, each option and `image_prompt` become `_sanitize_text` of their old value cut to the limit |
| QuizData.CleanQuestionSucceeds | backend/quiz_engine.py:74-80 | the question loop body raises exactly when `text`, an option or a present `image_prompt` is not a string |
| QuizData.CleanQuestionSanitizes | backend/quiz_engine.py:74-80 | when the loop body does not raise, its result is the question with the three text fields rewritten and all else kept |
| QuizData.CleanQuestionsSucceed | backend/quiz_engine.py:74-80 | the question loop runs through exactly when every question's text fields are strings |
| QuizData.CleanQuestionsSpec | backend/quiz_engine.py:74-80 | the question loop runs through exactly when every question's text fields are strings, and then replaces each question by its sanitised form |
| QuizData.MapAllSpec | backend/quiz_engine.py:74 | the loop over questions succeeds exactly when every step does, and gives their results in order |
| QuizData.SanitizedQuiz | backend/quiz_engine.py:70-81 | none of its own; see SanitizedQuizSpec |
| QuizData.SanitizedQuizSpec | backend/quiz_engine.py:70-81 | `_sanitize_quiz` on a validated quiz succeeds exactly when its text fields are strings. The result is still a valid quiz with the same keys. The title becomes `_sanitize_text(title)[:500]`, every other top-level key but `questions` is unchanged, and each question is replaced by its sanitised form |
| QuizData.SanitizedQuizSucceeds | backend/quiz_engine.py:70-81 | `_sanitize_quiz` on a validated quiz raises exactly when the title or a question's text field is not a string |
| QuizData.SanitizedQuizFields | backend/quiz_engine.py:70-73 | the title is rewritten as `_sanitize_text(title)[:500]`, and every other top-level key but `questions` keeps its value |
| QuizData.SanitizedQuizQuestions | backend/quiz_engine.py:74-80 | the questions keep their number, and each is replaced by its sanitised form |
| QuizData.SanitizedQuizWellFormed | backend/quiz_engine.py:70-81 | a validated quiz is still a valid quiz after sanitising |
| QuizData.SanitizeQuestion | backend/quiz_engine.py:75-80 | the body of the question loop computes the specified sanitised question |
| QuizData.SanitizeQuestions | backend/quiz_engine.py:74-80 | the question loop computes the specified list and stops at the first raise |
| QuizData.SanitizeQuiz | backend/quiz_engine.py:70-81 | the method computes the specified sanitised quiz |
| QuizData.AcceptReply | backend/quiz_engine.py:125-129 | none of its own; see AcceptReplySpec |
| QuizData.AcceptReplySpec | backend/quiz_engine.py:125-129 | a provider attempt keeps a reply exactly when it validates and its text fields are strings. What it keeps is exactly `_sanitize_quiz` of the reply, a valid quiz with a clean title |
| Generation.SelectProviderSettles | backend/quiz_engine.py:283 | the selected name is empty only when both names are, and selecting again keeps it |
| Generation.RolloverSettles | backend/quiz_engine.py:267-270 | a second rollover on the same day changes nothing, a rollover never raises the count, and it changes the counter exactly when the stored day is not today |
| Generation.GenerateStep | backend/quiz_engine.py:275-296 | none of its own; see GenerateStepSpec and DailyCap |
| Generation.GenerateStepSpec | backend/quiz_engine.py:275-296 | a call raises exactly when the day's count has reached a positive limit. An unknown provider returns None. The count rises by one only for a truthy reply. The stored day is today |
| Generation.DailyCap | backend/quiz_engine.py:265-296 | within a day the counter is the starting count plus the quizzes returned, and never passes a positive limit |
| Generation.AcceptedReplyCounts | backend/quiz_engine.py:125-129 | a kept reply is truthy, so it counts towards the daily limit |
| Generation.QuizEngine.constructor | backend/quiz_engine.py:261-263 | a new engine has count 0 on the current day |
| Generation.QuizEngine.CheckDailyLimit | backend/quiz_engine.py:265-273 | the counter is rolled over to today, and the answer is "under the limit", with a limit of 0 or less meaning unlimited |
| Generation.QuizEngine.GenerateQuiz | backend/quiz_engine.py:275-296 | the new counter and the outcome are exactly those `GenerateStep` gives |

## Left out

- The asyncio scheduling is not modelled.
  - Every handler runs to completion atomically.
  - The countdown of `question_timer` runs as one step (`Room.QuestionTimer`), so the
    model has no interleaving of other messages between ticks.
  - Cancelling the timer task is modelled as a `timerRunning` flag.
  - `asyncio.sleep` is not modelled.
- Wall-clock time and floats are not modelled. The clock is an integer tick passed in by
  the caller, and the points use an exact rational floor instead of float arithmetic.
- Websocket transport is not modelled.
  - `accept`, `close` and `receive_text` are not modelled.
  - A socket is its client id.
  - An incoming frame that is not valid JSON ends the receive loop, which the model treats
    as the end of the inbox.
  - A frame that is valid JSON but not an object (a list, a number, a string) makes
    `message.get` raise AttributeError in `handle_message` (backend/socket_manager.py:91).
    That is caught by the same `except` and cleaned up the same way, so the model treats it
    as the end of the inbox too.
  - Message fields are typed: `answer_index` is an `Option<int>`, so a JSON value such as
    `true` or `1.0` that Python compares equal to an int is not represented. The same
    holds for `time_limit` and `nickname`.
- SocketManager.SocketManager.Connect and SocketManager.Room.Session cover one client's
  session in isolation. Sessions of several clients that interleave are sequences of
  `Room.HandleMessage` calls on the same room, which the model allows but states no
  property about as a whole.
- SocketManager.Room.Register: a greeting whose send fails leaves the connection
  registered, as the source does. The model then reports `GreetingFailed` and does not
  run the session.
- SocketManager.Room.BroadcastToPlayers: the player-membership test is applied to the set
  it walks before the loop. The test is the same at every iteration, because the loop does
  not change `players`.
- The LLM providers (`_generate_ollama`, `_generate_gemini`, `_generate_claude`) are not
  modelled: their HTTP calls, retries, backoff and JSON decoding are foreign I/O. What one
  attempt does with a decoded reply is modelled by `QuizData.AcceptReply`.
- `get_available_providers` is not modelled: it probes the network.
- Logging is not modelled.
- `config.DAILY_QUIZ_LIMIT` and `config.DEFAULT_PROVIDER` are parameters; `date.today()` is
  a parameter too.
- QuizData.SanitizeQuiz requires a validated quiz. Its only caller validates first. On
  unvalidated input the source can also raise on odd shapes, which the model does not
  cover.
- RoomSpec.Redact: the room's question is a fixed record of six fields (`id`, `text`,
  `options`, `answer_index`, `image_prompt`, `image_url`). The source's comprehension
  passes on every key but `answer_index`, including any extra keys the LLM emitted. The
  model does not represent those extra keys.
- The `backend/config.py` of the source defines no `DAILY_QUIZ_LIMIT`. As written,
  `_check_daily_limit` would raise AttributeError on every `generate_quiz`. The model
  assumes the setting exists and takes the limit as a parameter.
- Prompts.Upper maps ASCII letters only. Python's `str.upper` also maps other Unicode
  letters and can change the length of a string.
- Prompts.FillTemplateLayout, PromptStatesCount and PromptEndsWithGuard are proved for
  every template. The system template is one instance, and its count delimiter is
  checked by `SystemPromptDelimited`.
- The literal text of the template is spelled out in `Prompts`, but only its structure is
  proved.
