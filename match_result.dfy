/** The match recorder: the record `saveMatchResult` builds for one finished
    game, with its winner and loser derived from the two scores. The match
    identifier and the current time are parameters. */
module MatchResult {

  /** Nine hours in milliseconds: the fixed offset from UTC to the venue's
      local time (no time-zone database is consulted). */
  const VenueOffsetMs: int := 9 * 60 * 60 * 1000

  /** The body of a POST /result request. */
  datatype MatchRequest = MatchRequest(
    place: string,
    player1Name: string, player1Score: int,
    player2Name: string, player2Score: int,
    matchTime: string)

  /** The persisted match record; `dateMs` is the shifted instant, kept as
      milliseconds since the epoch instead of its ISO-8601 rendering. */
  datatype MatchRecord = MatchRecord(
    place: string, matchId: string,
    player1Name: string, player1Score: int,
    player2Name: string, player2Score: int,
    matchTime: string, dateMs: int,
    winner: string, loser: string)

  /** Player 1 wins only with a strictly higher score; otherwise, ties
      included, player 2 is recorded as the winner. The pair is always the
      two names, once each. */
  function WinnerLoser(name1: string, score1: int, name2: string, score2: int): (r: (string, string))
    ensures multiset{r.0, r.1} == multiset{name1, name2}
    ensures name1 != name2 ==> (r.0 == name1 <==> score1 > score2)
    ensures name1 != name2 ==> (r.1 == name1 <==> score1 <= score2)
  {
    var player1Won := score1 > score2;
    (if player1Won then name1 else name2, if player1Won then name2 else name1)
  }

  /** With distinct scores, the outcome does not depend on which player was
      entered first. */
  lemma WinnerLoserSymmetric(name1: string, score1: int, name2: string, score2: int)
    requires score1 != score2
    ensures WinnerLoser(name2, score2, name1, score1) == WinnerLoser(name1, score1, name2, score2)
  {
  }

  /** A tie is recorded as a win for player 2. */
  lemma TieGoesToPlayer2(name1: string, name2: string, score: int)
    ensures WinnerLoser(name1, score, name2, score) == (name2, name1)
  {
  }

  /** The record saved for one request: every field of the request is kept,
      the identifier and time are the given ones, and the winner and loser
      are the two players' names. */
  function NewMatchRecord(data: MatchRequest, matchId: string, nowMs: int): (r: MatchRecord)
    ensures r.place == data.place && r.matchId == matchId && r.matchTime == data.matchTime
    ensures r.player1Name == data.player1Name && r.player1Score == data.player1Score
    ensures r.player2Name == data.player2Name && r.player2Score == data.player2Score
    ensures r.dateMs == nowMs + 32_400_000
    ensures multiset{r.winner, r.loser} == multiset{r.player1Name, r.player2Name}
    ensures r.player1Name != r.player2Name ==> (r.winner == r.player1Name <==> r.player1Score > r.player2Score)
  {
    var (winner, loser) := WinnerLoser(data.player1Name, data.player1Score, data.player2Name, data.player2Score);
    MatchRecord(data.place, matchId,
                data.player1Name, data.player1Score,
                data.player2Name, data.player2Score,
                data.matchTime, nowMs + VenueOffsetMs,
                winner, loser)
  }
}
