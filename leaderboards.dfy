/**
 * Leaderboards of backend/socket_manager.py: `get_leaderboard` (a stable sort of the
 * players by descending score) and `get_leaderboard_with_changes` (the same order, each
 * entry carrying the rank it held in the previous leaderboard snapshot).
 */
module Leaderboards {

  type ClientId = string

  /** One value of the `players` dict: the client id it is stored under and its record. */
  datatype Player = Player(id: ClientId, nickname: string, score: int, prevRank: int)

  /** An entry of `get_leaderboard`: `{nickname, score}`. */
  datatype Standing = Standing(nickname: string, score: int)

  /** An entry of `get_leaderboard_with_changes`. */
  datatype RankedStanding = RankedStanding(nickname: string, score: int, prevRank: int, rankChange: int)

  /** The players' `{nickname, score}` records, in dict order. */
  function Standings(players: seq<Player>): (r: seq<Standing>)
    ensures |r| == |players|
    ensures forall i :: 0 <= i < |r| ==> r[i] == Standing(players[i].nickname, players[i].score)
  {
    if players == [] then []
    else Standings(players[..|players| - 1]) + [Standing(players[|players| - 1].nickname, players[|players| - 1].score)]
  }

  ghost predicate SortedByScore(s: seq<Standing>) {
    forall i, j :: 0 <= i < j < |s| ==> s[i].score >= s[j].score
  }

  /** Places `x` after every entry of `s` whose score is at least `x.score`. */
  function Insert(x: Standing, s: seq<Standing>): seq<Standing>
  {
    if s == [] then [x]
    else if s[0].score >= x.score then [s[0]] + Insert(x, s[1..])
    else [x] + s
  }

  /**
   * Python's `sorted(..., key=score, reverse=True)`: descending by score, and entries
   * with equal scores keep their original relative order.
   */
  function SortByScore(s: seq<Standing>): seq<Standing>
  {
    if s == [] then [] else Insert(s[|s| - 1], SortByScore(s[..|s| - 1]))
  }

  /** `get_leaderboard`. */
  function Ranking(players: seq<Player>): seq<Standing>
  {
    SortByScore(Standings(players))
  }

  /** The entries of `s` with score `v`, in order. */
  function WithScore(s: seq<Standing>, v: int): seq<Standing>
  {
    if s == [] then [] else (if s[0].score == v then [s[0]] else []) + WithScore(s[1..], v)
  }

  lemma {:induction false} InsertPermutes(x: Standing, s: seq<Standing>)
    ensures multiset(Insert(x, s)) == multiset(s) + multiset{x}
  {
    if s != [] && s[0].score >= x.score {
      InsertPermutes(x, s[1..]);
      assert s == [s[0]] + s[1..];
    }
  }

  lemma {:induction false} InsertSorted(x: Standing, s: seq<Standing>)
    requires SortedByScore(s)
    ensures SortedByScore(Insert(x, s))
  {
    if s != [] && s[0].score >= x.score {
      var rest := Insert(x, s[1..]);
      InsertSorted(x, s[1..]);
      InsertPermutes(x, s[1..]);
      forall j | 0 <= j < |rest| ensures s[0].score >= rest[j].score {
        assert rest[j] in multiset(rest);
        assert rest[j] in multiset(s[1..]) || rest[j] == x;
      }
    }
  }

  lemma {:induction false} SortedAndPermutes(s: seq<Standing>)
    ensures SortedByScore(SortByScore(s))
    ensures multiset(SortByScore(s)) == multiset(s)
  {
    if s != [] {
      var init := s[..|s| - 1];
      SortedAndPermutes(init);
      InsertSorted(s[|s| - 1], SortByScore(init));
      InsertPermutes(s[|s| - 1], SortByScore(init));
      assert s == init + [s[|s| - 1]];
    }
  }

  lemma {:induction false} WithScoreConcat(a: seq<Standing>, b: seq<Standing>, v: int)
    ensures WithScore(a + b, v) == WithScore(a, v) + WithScore(b, v)
  {
    if a == [] {
      assert a + b == b;
    } else {
      WithScoreConcat(a[1..], b, v);
      assert (a + b)[1..] == a[1..] + b;
    }
  }

  lemma {:induction false} WithScoreNone(s: seq<Standing>, v: int)
    requires forall i :: 0 <= i < |s| ==> s[i].score < v
    ensures WithScore(s, v) == []
  {
    if s != [] {
      WithScoreNone(s[1..], v);
    }
  }

  lemma {:induction false} InsertKeepsTies(x: Standing, s: seq<Standing>, v: int)
    requires SortedByScore(s)
    ensures WithScore(Insert(x, s), v) == WithScore(s, v) + (if x.score == v then [x] else [])
  {
    if s == [] {
    } else if s[0].score >= x.score {
      InsertKeepsTies(x, s[1..], v);
      assert ([s[0]] + Insert(x, s[1..]))[1..] == Insert(x, s[1..]);
    } else {
      assert ([x] + s)[1..] == s;
      if x.score == v {
        WithScoreNone(s, v);
      }
    }
  }

  /** The sort is stable: for every score, the tied entries keep their input order. */
  lemma {:induction false} SortIsStable(s: seq<Standing>, v: int)
    ensures WithScore(SortByScore(s), v) == WithScore(s, v)
  {
    if s != [] {
      var init, last := s[..|s| - 1], s[|s| - 1];
      SortIsStable(init, v);
      SortedAndPermutes(init);
      InsertKeepsTies(last, SortByScore(init), v);
      WithScoreConcat(init, [last], v);
      assert s == init + [last];
    }
  }

  /**
   * `get_leaderboard` returns every player's `{nickname, score}` exactly once, sorted by
   * non-increasing score, ties in dict order.
   */
  lemma RankingSpec(players: seq<Player>, v: int)
    ensures |Ranking(players)| == |players|
    ensures SortedByScore(Ranking(players))
    ensures multiset(Ranking(players)) == multiset(Standings(players))
    ensures WithScore(Ranking(players), v) == WithScore(Standings(players), v)
  {
    SortedAndPermutes(Standings(players));
    SortIsStable(Standings(players), v);
    assert |multiset(Ranking(players))| == |Ranking(players)|;
  }

  /** `{p["nickname"]: i for i, p in enumerate(previous)}`: a later entry overwrites an earlier one. */
  function PrevRankings(previous: seq<Standing>): map<string, nat>
  {
    if previous == [] then map[]
    else PrevRankings(previous[..|previous| - 1])[previous[|previous| - 1].nickname := |previous| - 1]
  }

  /** `k` is the last position of `nickname` in `previous`. */
  ghost predicate IsLastPosition(previous: seq<Standing>, nickname: string, k: int) {
    && 0 <= k < |previous|
    && previous[k].nickname == nickname
    && forall j :: k < j < |previous| ==> previous[j].nickname != nickname
  }

  lemma {:induction false} PrevRankingsLast(previous: seq<Standing>, nickname: string)
    ensures nickname in PrevRankings(previous) <==> exists k :: 0 <= k < |previous| && previous[k].nickname == nickname
    ensures nickname in PrevRankings(previous) ==> IsLastPosition(previous, nickname, PrevRankings(previous)[nickname])
  {
    if previous != [] {
      var init := previous[..|previous| - 1];
      PrevRankingsLast(init, nickname);
      if nickname != previous[|previous| - 1].nickname {
        if exists k :: 0 <= k < |previous| && previous[k].nickname == nickname {
          var k :| 0 <= k < |previous| && previous[k].nickname == nickname;
          assert init[k].nickname == nickname;
        }
      }
    }
  }

  /** Entry `i` of the leaderboard with changes, given the sorted board and previous ranks. */
  function RankedAt(board: seq<Standing>, ranks: map<string, nat>, i: nat): RankedStanding
    requires i < |board|
  {
    var prev := if board[i].nickname in ranks then ranks[board[i].nickname] else i;
    RankedStanding(board[i].nickname, board[i].score, prev, prev - i)
  }

  /** The value `get_leaderboard_with_changes` builds. */
  function RankedLeaderboard(players: seq<Player>, previous: seq<Standing>): seq<RankedStanding>
  {
    var board := Ranking(players);
    var ranks := PrevRankings(previous);
    seq(|board|, i requires 0 <= i < |board| => RankedAt(board, ranks, i))
  }

  /**
   * Entry `i` keeps the current order's nickname and score; `prev_rank` is the nickname's
   * last position in the previous snapshot, or `i` when absent (so `rank_change` is 0), and
   * `rank_change` is `prev_rank - i`.
   */
  lemma RankedLeaderboardSpec(players: seq<Player>, previous: seq<Standing>, i: nat)
    requires i < |players|
    ensures |RankedLeaderboard(players, previous)| == |players|
    ensures var e := RankedLeaderboard(players, previous)[i];
      && e.nickname == Ranking(players)[i].nickname
      && e.score == Ranking(players)[i].score
      && e.rankChange == e.prevRank - i
      && ((exists k :: 0 <= k < |previous| && previous[k].nickname == e.nickname) ==> IsLastPosition(previous, e.nickname, e.prevRank))
      && ((forall k :: 0 <= k < |previous| ==> previous[k].nickname != e.nickname) ==> e.prevRank == i && e.rankChange == 0)
  {
    RankingSpec(players, 0);
    PrevRankingsLast(previous, Ranking(players)[i].nickname);
  }

  /** `get_leaderboard_with_changes`: the loop that appends one entry per sorted player. */
  method LeaderboardWithChanges(players: seq<Player>, previous: seq<Standing>) returns (result: seq<RankedStanding>)
    ensures result == RankedLeaderboard(players, previous)
  {
    var ranks := PrevRankings(previous);
    var board := Ranking(players);
    result := [];
    for i := 0 to |board|
      invariant |result| == i
      invariant forall j :: 0 <= j < i ==> result[j] == RankedAt(board, ranks, j)
    {
      var prev := if board[i].nickname in ranks then ranks[board[i].nickname] else i;
      result := result + [RankedStanding(board[i].nickname, board[i].score, prev, prev - i)];
    }
  }
}
