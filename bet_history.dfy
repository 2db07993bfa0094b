/**
 * The bet history page (`pages/BetHistoryPage.tsx`): the per-bet verdict
 * shown beside each game, which rounds are listed for the user, the
 * top-scorer line of a round and the one-open-tournament toggle.
 * The icons and markup are left out; a rendered row, round or section is a
 * datatype holding what it shows.
 */
module BetHistory {
  import opened Wrappers
  import opened Types
  import Seqs
  import Scoring
  import DataContext

  // ------------------------------------------------------------ the verdict

  /** What the points column shows for one bet: the points and the verdict. */
  datatype BetResult = BetResult(points: nat, verdict: string)

  /** `getBetResult` */
  function GetBetResult(betScoreA: nat, betScoreB: nat, finalScoreA: Option<nat>, finalScoreB: Option<nat>): BetResult {
    if finalScoreA.None? || finalScoreB.None? then BetResult(0, "Aguardando")
    else if betScoreA == finalScoreA.value && betScoreB == finalScoreB.value then BetResult(3, "Placar Exato")
    else
      var betResult := if betScoreA > betScoreB then 'A' else if betScoreA < betScoreB then 'B' else 'D';
      var finalResult := if finalScoreA.value > finalScoreB.value then 'A'
                         else if finalScoreA.value < finalScoreB.value then 'B' else 'D';
      if betResult == finalResult then BetResult(1, "Resultado Correto")
      else BetResult(0, "Incorreto")
  }

  /**
   * The page and the leaderboard agree on every bet: the points shown are
   * the points the leaderboard credits, "Placar Exato" is shown exactly for
   * the bets counted as exact scores, and a game still awaiting a result
   * earns nothing in either.
   */
  lemma VerdictMatchesLeaderboard(bet: Bet, game: Game)
    ensures var r := GetBetResult(bet.scoreA, bet.scoreB, game.finalScoreA, game.finalScoreB);
      var credit := Scoring.BetCredit(bet.userId, game, bet);
      && r.points == credit.points
      && (r.verdict == "Placar Exato" <==> credit.exact == 1)
      && (r.verdict == "Aguardando" <==> game.finalScoreA.None? || game.finalScoreB.None?)
  {
    if game.finalScoreA.Some? && game.finalScoreB.Some? {
      Scoring.BetAwardRule(bet, game.finalScoreA.value, game.finalScoreB.value);
    }
  }

  /**
   * The four verdicts and their points: each verdict goes with one number of
   * points, and with a known result the points are 3, 1 or 0 as the bet is
   * exact, has the right outcome, or neither.
   */
  lemma VerdictLabels(betScoreA: nat, betScoreB: nat, finalScoreA: Option<nat>, finalScoreB: Option<nat>)
    ensures var r := GetBetResult(betScoreA, betScoreB, finalScoreA, finalScoreB);
      && r.verdict in {"Aguardando", "Placar Exato", "Resultado Correto", "Incorreto"}
      && (r.verdict == "Placar Exato" <==> r.points == 3)
      && (r.verdict == "Resultado Correto" <==> r.points == 1)
      && (r.verdict == "Aguardando" || r.verdict == "Incorreto" <==> r.points == 0)
      && (finalScoreA.Some? && finalScoreB.Some? ==>
            && (r.points == 3 <==> betScoreA == finalScoreA.value && betScoreB == finalScoreB.value)
            && (r.points >= 1 <==> Scoring.OutcomeOf(betScoreA, betScoreB) == Scoring.OutcomeOf(finalScoreA.value, finalScoreB.value)))
  {
  }

  // ---------------------------------------------------------- game rows

  /** One row of a round's table: the game, the user's bet on it and the verdict. */
  datatype GameRow = GameRow(game: Game, bet: Bet, result: BetResult)

  function BetOnGame(gameId: string): Bet -> bool {
    (b: Bet) => b.gameId == gameId
  }

  /**
   * `round.games.map(game => …)` where a game without a bet by the user
   * renders nothing: one row per game the user bet on, in game order, with
   * the first of the user's bets on that game.
   */
  function Rows(games: seq<Game>, userBets: seq<Bet>): seq<GameRow> {
    if games == [] then []
    else
      var game := games[0];
      match Seqs.Find(userBets, BetOnGame(game.id))
      case None => Rows(games[1..], userBets)
      case Some(bet) =>
        [GameRow(game, bet, GetBetResult(bet.scoreA, bet.scoreB, game.finalScoreA, game.finalScoreB))] + Rows(games[1..], userBets)
  }

  /** Every row pairs a game of the round with one of the user's bets on it, and shows that bet's verdict. */
  lemma {:induction false} RowsSound(games: seq<Game>, userBets: seq<Bet>)
    ensures |Rows(games, userBets)| <= |games|
    ensures forall row :: row in Rows(games, userBets) ==>
      && row.game in games
      && row.bet in userBets
      && row.bet.gameId == row.game.id
      && row.result == GetBetResult(row.bet.scoreA, row.bet.scoreB, row.game.finalScoreA, row.game.finalScoreB)
  {
    if games != [] {
      RowsSound(games[1..], userBets);
      assert forall g :: g in games[1..] ==> g in games;
    }
  }

  /** A game of the round gets a row exactly when the user bet on it. */
  lemma {:induction false} RowsComplete(games: seq<Game>, userBets: seq<Bet>, g: Game)
    requires g in games
    ensures (exists row :: row in Rows(games, userBets) && row.game == g) <==> (exists b :: b in userBets && b.gameId == g.id)
  {
    var game := games[0];
    var rest := Rows(games[1..], userBets);
    if g != game {
      RowsComplete(games[1..], userBets, g);
    }
    match Seqs.Find(userBets, BetOnGame(game.id))
    case None =>
      assert Rows(games, userBets) == rest;
      RowsSound(games[1..], userBets);
    case Some(bet) =>
      var row := GameRow(game, bet, GetBetResult(bet.scoreA, bet.scoreB, game.finalScoreA, game.finalScoreB));
      assert Rows(games, userBets) == [row] + rest;
      if g == game {
        assert row in Rows(games, userBets);
        assert bet in userBets && bet.gameId == g.id;
      }
  }

  // ---------------------------------------------------------- round cards

  /** The top-scorer line: the picked player, and once results are in, the goals and their points. */
  datatype PickLine = PickLine(player: Player, tally: Option<(nat, nat)>)

  /** A listed round: its name, the top-scorer line when the pick is a known player, and the rows. */
  datatype RoundCard = RoundCard(round: Round, pick: Option<PickLine>, rows: seq<GameRow>)

  /** `userTopScorerId ? round.scorers[userTopScorerId] || 0 : 0`, where an empty id counts as no pick. */
  function GoalsScored(round: Round, userId: string): nat {
    if userId in round.topScorerBets && round.topScorerBets[userId] != "" then
      Scoring.GoalsOf(round, round.topScorerBets[userId])
    else 0
  }

  /**
   * One round of the history: nothing when the user has no bet on its
   * games and no pick naming a known player, otherwise the card.
   */
  function RoundHistory(bets: seq<Bet>, players: seq<Player>, userId: string, round: Round): (r: Option<RoundCard>)
    ensures var mine := DataContext.UserBetsForRound(bets, players, userId, round);
      r.None? <==> mine.bets == [] && mine.topScorer.None?
  {
    var mine := DataContext.UserBetsForRound(bets, players, userId, round);
    if |mine.bets| == 0 && mine.topScorer.None? then None
    else
      var goals := GoalsScored(round, userId);
      var pick := match mine.topScorer
        case None => None
        case Some(player) => Some(PickLine(player, if round.resultsEntered then Some((goals, goals * 3)) else None));
      Some(RoundCard(round, pick, Rows(round.games, mine.bets)))
  }

  /**
   * A round is listed exactly when the user has a bet on one of its games
   * or picked a top scorer who is a known player.
   */
  lemma ListedRounds(bets: seq<Bet>, players: seq<Player>, userId: string, round: Round)
    ensures RoundHistory(bets, players, userId, round).Some? <==>
      || (exists b :: b in bets && b.userId == userId && DataContext.HasGame(round, b.gameId))
      || (userId in round.topScorerBets && exists p :: p in players && p.id == round.topScorerBets[userId])
  {
    var mine := DataContext.UserBetsForRound(bets, players, userId, round);
    if mine.bets != [] {
      assert mine.bets[0] in mine.bets;
    }
  }

  /**
   * The top-scorer line shows, once results are in, the goals the
   * leaderboard credits for the pick and three points per goal; the
   * leaderboard credits the same points.
   */
  lemma PickLineMatchesLeaderboard(bets: seq<Bet>, players: seq<Player>, userId: string, round: Round)
    requires var r := RoundHistory(bets, players, userId, round);
      r.Some? && r.value.pick.Some? && round.resultsEntered
    requires userId in round.topScorerBets && round.topScorerBets[userId] != ""
    ensures var line := RoundHistory(bets, players, userId, round).value.pick.value;
      var (goals, points) := line.tally.value;
      && line.player.id == round.topScorerBets[userId]
      && goals == Scoring.PickTally(userId, round).goals
      && points == Scoring.PickTally(userId, round).points
  {
  }

  // ------------------------------------------------------ the whole page

  /** One tournament: its header, and its listed rounds when it is the open one. */
  datatype Section = Section(tournament: Tournament, open: bool, rounds: seq<RoundCard>)

  /** The page: a login prompt without a user, otherwise one section per tournament. */
  datatype Page = LoginPrompt | History(sections: seq<Section>)

  /**
   * The open tournament's cards: every round with a history gets its card,
   * and no other card is listed.
   */
  function ListedCards(bets: seq<Bet>, players: seq<Player>, userId: string, rounds: seq<Round>): (cards: seq<RoundCard>)
    ensures |cards| <= |rounds|
    ensures forall c :: c in cards ==> c.round in rounds && RoundHistory(bets, players, userId, c.round) == Some(c)
    ensures forall r :: r in rounds && RoundHistory(bets, players, userId, r).Some? ==>
      RoundHistory(bets, players, userId, r).value in cards
  {
    if rounds == [] then []
    else
      var rest := ListedCards(bets, players, userId, rounds[1..]);
      match RoundHistory(bets, players, userId, rounds[0])
      case None => rest
      case Some(card) => [card] + rest
  }

  /** The rounds whose history is not null, in round order. */
  function HistoryRounds(bets: seq<Bet>, players: seq<Player>, userId: string, rounds: seq<Round>): seq<Round> {
    Seqs.Filter(rounds, r => RoundHistory(bets, players, userId, r).Some?)
  }

  /**
   * The cards are exactly `rounds.map(...).filter(Boolean)`: the histories
   * of the rounds that have one, in round order.
   */
  lemma {:induction false} ListedCardsInOrder(bets: seq<Bet>, players: seq<Player>, userId: string, rounds: seq<Round>)
    ensures var listed := HistoryRounds(bets, players, userId, rounds);
      var cards := ListedCards(bets, players, userId, rounds);
      && |cards| == |listed|
      && forall i :: 0 <= i < |cards| ==> Some(cards[i]) == RoundHistory(bets, players, userId, listed[i])
  {
    if rounds != [] {
      ListedCardsInOrder(bets, players, userId, rounds[1..]);
    }
  }

  function RenderPage(user: Option<User>, tournaments: seq<Tournament>, bets: seq<Bet>, players: seq<Player>,
                      openTournament: Option<string>): (page: Page)
    ensures page.LoginPrompt? <==> user.None?
    ensures page.History? ==> |page.sections| == |tournaments|
    ensures page.History? ==> forall i :: 0 <= i < |tournaments| ==>
      && page.sections[i].tournament == tournaments[i]
      && (page.sections[i].open <==> openTournament == Some(tournaments[i].id))
      && (!page.sections[i].open ==> page.sections[i].rounds == [])
    ensures page.History? ==> forall i :: 0 <= i < |tournaments| && page.sections[i].open ==>
      page.sections[i].rounds == ListedCards(bets, players, user.value.id, tournaments[i].rounds)
  {
    match user
    case None => LoginPrompt
    case Some(u) =>
      History(seq(|tournaments|, i requires 0 <= i < |tournaments| =>
        var t := tournaments[i];
        var open := openTournament == Some(t.id);
        Section(t, open, if open then ListedCards(bets, players, u.id, t.rounds) else [])))
  }

  /** The tournament header button: opens a closed tournament, closes the open one. */
  function Toggled(openTournament: Option<string>, tournamentId: string): (r: Option<string>)
    ensures r == Some(tournamentId) <==> openTournament != Some(tournamentId)
    ensures r.None? <==> openTournament == Some(tournamentId)
  {
    if openTournament == Some(tournamentId) then None else Some(tournamentId)
  }

  /** Clicking the same header twice from a closed state closes it again; from the open state it reopens it. */
  lemma ToggleTwice(openTournament: Option<string>, tournamentId: string)
    ensures Toggled(Toggled(openTournament, tournamentId), tournamentId)
         == if openTournament == Some(tournamentId) then Some(tournamentId) else None
  {
  }

  /** The page's one piece of state. */
  class HistoryPage {
    var openTournament: Option<string>

    constructor ()
      ensures openTournament == None
    {
      openTournament := None;
    }

    /** The header's `onClick` */
    method Toggle(tournamentId: string)
      modifies this
      ensures openTournament == Toggled(old(openTournament), tournamentId)
    {
      openTournament := if openTournament == Some(tournamentId) then None else Some(tournamentId);
    }
  }
}
