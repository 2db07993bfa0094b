/**
 * The pool's store (`context/DataContext.tsx`): tournaments, players, bets
 * and achievements, the operations that replace them, and `getLeaderboard`,
 * whose loops are proved to compute `Scoring.Leaderboard`.
 *
 * The React state setters become assignments to the fields of `DataStore`;
 * `Date.now()` is the parameter `now`; the user list the leaderboard reads
 * is a parameter.
 */
module DataContext {
  import opened Wrappers
  import opened Types
  import Seqs
  import Text
  import Scoring

  // ------------------------------------------------- the leaderboard loops

  /**
   * The accumulator dictionary as an object: its entries, and its keys in
   * insertion order (the order `Object.values` lists the entries in).
   */
  method InitAccumulators(participants: seq<User>) returns (scores: map<string, Score>, order: seq<string>)
    ensures scores == Scoring.Accumulators(participants)
    ensures order == Scoring.AccumulatorKeys(participants)
  {
    scores := map[];
    order := [];
    var i := 0;
    while i < |participants|
      invariant i <= |participants|
      invariant scores == Scoring.Accumulators(participants[..i])
      invariant order == Scoring.AccumulatorKeys(participants[..i])
    {
      var user := participants[i];
      assert participants[..i + 1][..i] == participants[..i];
      if user.id !in scores {
        order := order + [user.id];
      }
      scores := scores[user.id := Scoring.InitialScore(user)];
      i := i + 1;
    }
    assert participants[..i] == participants;
  }

  /** Adding two tallies one after the other is adding their sum. */
  lemma CreditPlus(s: Score, t1: Scoring.Tally, t2: Scoring.Tally)
    ensures Scoring.Credit(Scoring.Credit(s, t1), t2) == Scoring.Credit(s, t1.Plus(t2))
  {
  }

  /**
   * The body of `gameBets.forEach(bet => …)`: a bet whose user has an
   * accumulator adds 3 points and an exact score when it hits the final
   * score, and 1 point when it only hits the outcome; a game without both
   * final scores adds nothing.
   */
  method CreditBet(before: map<string, Score>, game: Game, bet: Bet) returns (scores: map<string, Score>)
    ensures scores.Keys == before.Keys
    ensures forall k :: k in scores ==> scores[k] == Scoring.Credit(before[k], Scoring.BetCredit(k, game, bet))
  {
    scores := before;
    if bet.userId in scores && game.finalScoreA.Some? && game.finalScoreB.Some? {
      var finalA := game.finalScoreA.value;
      var finalB := game.finalScoreB.value;
      var isExactScore := bet.scoreA == finalA && bet.scoreB == finalB;
      var betResult := if bet.scoreA > bet.scoreB then 'A' else if bet.scoreA < bet.scoreB then 'B' else 'D';
      var gameResult := if finalA > finalB then 'A' else if finalA < finalB then 'B' else 'D';
      var isCorrectResult := betResult == gameResult;
      var line := scores[bet.userId];
      if isExactScore {
        scores := scores[bet.userId := line.(totalPoints := line.totalPoints + 3, exactScores := line.exactScores + 1)];
      } else if isCorrectResult {
        scores := scores[bet.userId := line.(totalPoints := line.totalPoints + 1)];
      }
    }
  }

  /** `gameBets.forEach(bet => …)` */
  method CreditBets(before: map<string, Score>, game: Game, gameBets: seq<Bet>) returns (scores: map<string, Score>)
    ensures scores.Keys == before.Keys
    ensures forall k :: k in scores ==> scores[k] == Scoring.Credit(before[k], Scoring.BetsTally(k, game, gameBets))
  {
    scores := before;
    var j := 0;
    while j < |gameBets|
      invariant j <= |gameBets|
      invariant scores.Keys == before.Keys
      invariant forall k :: k in scores ==> scores[k] == Scoring.Credit(before[k], Scoring.BetsTally(k, game, gameBets[..j]))
    {
      var bet := gameBets[j];
      var next := CreditBet(scores, game, bet);
      forall k | k in next
        ensures next[k] == Scoring.Credit(before[k], Scoring.BetsTally(k, game, gameBets[..j + 1]))
      {
        BetsTallyStep(k, game, gameBets, j);
        CreditPlus(before[k], Scoring.BetsTally(k, game, gameBets[..j]), Scoring.BetCredit(k, game, bet));
      }
      scores := next;
      j := j + 1;
    }
    assert gameBets[..j] == gameBets;
  }

  lemma BetsTallyStep(k: string, game: Game, bets: seq<Bet>, j: nat)
    requires j < |bets|
    ensures Scoring.BetsTally(k, game, bets[..j + 1])
         == Scoring.BetsTally(k, game, bets[..j]).Plus(Scoring.BetCredit(k, game, bets[j]))
  {
    assert bets[..j + 1][..j] == bets[..j];
  }

  /** `round.games.forEach(game => …)` over the bets the pool holds on each game. */
  method CreditGames(before: map<string, Score>, games: seq<Game>, bets: seq<Bet>) returns (scores: map<string, Score>)
    ensures scores.Keys == before.Keys
    ensures forall k :: k in scores ==> scores[k] == Scoring.Credit(before[k], Scoring.GamesTally(k, games, bets))
  {
    scores := before;
    var g := 0;
    while g < |games|
      invariant g <= |games|
      invariant scores.Keys == before.Keys
      invariant forall k :: k in scores ==> scores[k] == Scoring.Credit(before[k], Scoring.GamesTally(k, games[..g], bets))
    {
      var game := games[g];
      assert games[..g + 1][..g] == games[..g];
      var gameBets := Scoring.BetsOnGame(bets, game.id);
      scores := CreditBets(scores, game, gameBets);
      forall k | k in scores
        ensures scores[k] == Scoring.Credit(before[k], Scoring.GamesTally(k, games[..g + 1], bets))
      {
        CreditPlus(before[k], Scoring.GamesTally(k, games[..g], bets), Scoring.GameTally(k, game, bets));
      }
      g := g + 1;
    }
    assert games[..g] == games;
  }

  /**
   * `Object.keys(round.topScorerBets).forEach(userId => …)`: a user with an
   * accumulator whose pick scored earns 3 points per goal and the goals.
   * Each user id is visited once; the visiting order does not matter, so the
   * model picks any pending key.
   */
  method CreditPicks(before: map<string, Score>, round: Round) returns (scores: map<string, Score>)
    ensures scores.Keys == before.Keys
    ensures forall k :: k in scores ==> scores[k] == Scoring.Credit(before[k], Scoring.PickTally(k, round))
  {
    scores := before;
    var pending := round.topScorerBets.Keys;
    while pending != {}
      invariant pending <= round.topScorerBets.Keys
      invariant scores.Keys == before.Keys
      invariant forall k :: k in scores ==> scores[k] == Scoring.Credit(before[k], if k in pending then Scoring.Zero() else Scoring.PickTally(k, round))
      decreases |pending|
    {
      var userId :| userId in pending;
      if userId in scores {
        var betPlayerId := round.topScorerBets[userId];
        var goals := if betPlayerId in round.scorers then round.scorers[betPlayerId] else 0;
        if goals > 0 {
          var line := scores[userId];
          scores := scores[userId := line.(totalPoints := line.totalPoints + goals * 3, topScorerGoals := line.topScorerGoals + goals)];
        }
      }
      pending := pending - {userId};
    }
  }

  /** The body of `tournament.rounds.forEach(round => …)`: only a round with results entered adds. */
  method CreditRound(before: map<string, Score>, round: Round, bets: seq<Bet>) returns (scores: map<string, Score>)
    ensures scores.Keys == before.Keys
    ensures forall k :: k in scores ==> scores[k] == Scoring.Credit(before[k], Scoring.RoundTally(k, round, bets))
  {
    scores := before;
    if round.resultsEntered {
      var afterGames := CreditGames(scores, round.games, bets);
      scores := CreditPicks(afterGames, round);
      forall k | k in scores
        ensures scores[k] == Scoring.Credit(before[k], Scoring.RoundTally(k, round, bets))
      {
        CreditPlus(before[k], Scoring.GamesTally(k, round.games, bets), Scoring.PickTally(k, round));
      }
    }
  }

  /** `tournament.rounds.forEach(round => …)` */
  method CreditRounds(before: map<string, Score>, rounds: seq<Round>, bets: seq<Bet>) returns (scores: map<string, Score>)
    ensures scores.Keys == before.Keys
    ensures forall k :: k in scores ==> scores[k] == Scoring.Credit(before[k], Scoring.RoundsTally(k, rounds, bets))
  {
    scores := before;
    var r := 0;
    while r < |rounds|
      invariant r <= |rounds|
      invariant scores.Keys == before.Keys
      invariant forall k :: k in scores ==> scores[k] == Scoring.Credit(before[k], Scoring.RoundsTally(k, rounds[..r], bets))
    {
      var next := CreditRound(scores, rounds[r], bets);
      forall k | k in next
        ensures next[k] == Scoring.Credit(before[k], Scoring.RoundsTally(k, rounds[..r + 1], bets))
      {
        RoundsTallyStep(k, rounds, r, bets);
        CreditPlus(before[k], Scoring.RoundsTally(k, rounds[..r], bets), Scoring.RoundTally(k, rounds[r], bets));
      }
      scores := next;
      r := r + 1;
    }
    assert rounds[..r] == rounds;
  }

  lemma RoundsTallyStep(k: string, rounds: seq<Round>, r: nat, bets: seq<Bet>)
    requires r < |rounds|
    ensures Scoring.RoundsTally(k, rounds[..r + 1], bets)
         == Scoring.RoundsTally(k, rounds[..r], bets).Plus(Scoring.RoundTally(k, rounds[r], bets))
  {
    assert rounds[..r + 1][..r] == rounds[..r];
  }

  // ------------------------------------------------------------ new records

  /** `t-${Date.now()}` */
  function TournamentId(now: nat): string {
    "t-" + Text.NatToString(now)
  }

  /** `r-${tournamentId}-${Date.now()}` */
  function RoundId(tournamentId: string, now: nat): string {
    "r-" + tournamentId + "-" + Text.NatToString(now)
  }

  /** `g-${Date.now()}` */
  function GameId(now: nat): string {
    "g-" + Text.NatToString(now)
  }

  /** Tournaments created at different instants get different ids. */
  lemma TournamentIdInjective(now1: nat, now2: nat)
    ensures TournamentId(now1) == TournamentId(now2) <==> now1 == now2
  {
    if TournamentId(now1) == TournamentId(now2) {
      assert Text.NatToString(now1) == TournamentId(now1)[2..];
      Text.ParseNatToString(now1);
      Text.ParseNatToString(now2);
    }
  }

  /** Rounds added to one tournament at different instants get different ids. */
  lemma RoundIdInjective(tournamentId: string, now1: nat, now2: nat)
    ensures RoundId(tournamentId, now1) == RoundId(tournamentId, now2) <==> now1 == now2
  {
    if RoundId(tournamentId, now1) == RoundId(tournamentId, now2) {
      var k := |tournamentId| + 3;
      assert Text.NatToString(now1) == RoundId(tournamentId, now1)[k..];
      Text.ParseNatToString(now1);
      Text.ParseNatToString(now2);
    }
  }

  /** Games added at different instants get different ids. */
  lemma GameIdInjective(now1: nat, now2: nat)
    ensures GameId(now1) == GameId(now2) <==> now1 == now2
  {
    if GameId(now1) == GameId(now2) {
      assert Text.NatToString(now1) == GameId(now1)[2..];
      Text.ParseNatToString(now1);
      Text.ParseNatToString(now2);
    }
  }

  /** A new tournament has no rounds yet. */
  function NewTournament(name: string, imageUrl: Option<string>, now: nat): Tournament {
    Tournament(TournamentId(now), name, imageUrl, [])
  }

  /** A new round has no games, no picks, no scorers and no results. */
  function NewRound(tournamentId: string, name: string, deadline: int, now: nat): Round {
    Round(RoundId(tournamentId, now), name, [], deadline, map[], false, map[])
  }

  /** A game as the caller describes it, without its id (`Omit<Game, 'id'>`). */
  datatype GameData = GameData(
    teamA: string,
    teamB: string,
    teamALogo: Option<string>,
    teamBLogo: Option<string>,
    finalScoreA: Option<nat>,
    finalScoreB: Option<nat>)

  function NewGame(data: GameData, now: nat): Game {
    Game(GameId(now), data.teamA, data.teamB, data.teamALogo, data.teamBLogo, data.finalScoreA, data.finalScoreB)
  }

  // ------------------------------------------------------ tournament lists

  /** `tournaments.find(t => t.id === tournamentId) || null`, where an empty or missing id selects nothing. */
  function Selection(tournaments: seq<Tournament>, tournamentId: Option<string>): (r: Option<Tournament>)
    ensures r.Some? ==> tournamentId.Some? && r.value in tournaments && r.value.id == tournamentId.value != ""
    ensures r.None? <==> (|| tournamentId.None?
                          || tournamentId.value == ""
                          || forall i :: 0 <= i < |tournaments| ==> tournaments[i].id != tournamentId.value)
  {
    match tournamentId
    case None => None
    case Some(id) => if id == "" then None else Scoring.FindTournament(tournaments, id)
  }

  /** `prev.map(t => t.id === tournamentId ? { ...t, ...data } : t)` */
  function Rename(tournaments: seq<Tournament>, tournamentId: string, name: string, imageUrl: string): seq<Tournament> {
    seq(|tournaments|, i requires 0 <= i < |tournaments| =>
      var t := tournaments[i];
      if t.id == tournamentId then t.(name := name, imageUrl := Some(imageUrl)) else t)
  }

  /** `prev.filter(t => t.id !== tournamentId)` */
  function Remove(tournaments: seq<Tournament>, tournamentId: string): seq<Tournament> {
    Seqs.Filter(tournaments, IdOtherThan(tournamentId))
  }

  function IdOtherThan(tournamentId: string): Tournament -> bool {
    (t: Tournament) => t.id != tournamentId
  }

  /** `prev.map(t => t.id === tournamentId ? {...t, rounds: [...t.rounds, newRound]} : t)` */
  function AppendRound(tournaments: seq<Tournament>, tournamentId: string, round: Round): seq<Tournament> {
    seq(|tournaments|, i requires 0 <= i < |tournaments| =>
      var t := tournaments[i];
      if t.id == tournamentId then t.(rounds := t.rounds + [round]) else t)
  }

  /** The three ways the store rewrites one round. */
  datatype RoundEdit =
    | AppendGame(game: Game)
    | SetPick(userId: string, playerId: string)
    | SetResults(games: seq<Game>, scorers: map<string, nat>)

  function ApplyEdit(round: Round, edit: RoundEdit): Round {
    match edit
    case AppendGame(game) => round.(games := round.games + [game])
    case SetPick(userId, playerId) => round.(topScorerBets := round.topScorerBets[userId := playerId])
    case SetResults(games, scorers) => round.(games := games, scorers := scorers, resultsEntered := true)
  }

  /** `t.rounds.map(r => r.id === roundId ? edit(r) : r)` */
  function EditRounds(rounds: seq<Round>, roundId: string, edit: RoundEdit): seq<Round> {
    seq(|rounds|, j requires 0 <= j < |rounds| =>
      if rounds[j].id == roundId then ApplyEdit(rounds[j], edit) else rounds[j])
  }

  /** `prev.map(t => t.id === tournamentId ? { ...t, rounds: t.rounds.map(…) } : t)` */
  function EditTournaments(tournaments: seq<Tournament>, tournamentId: string, roundId: string, edit: RoundEdit): seq<Tournament> {
    seq(|tournaments|, i requires 0 <= i < |tournaments| =>
      var t := tournaments[i];
      if t.id == tournamentId then t.(rounds := EditRounds(t.rounds, roundId, edit)) else t)
  }

  /**
   * A round edit rewrites every round with the round id inside every
   * tournament with the tournament id, and nothing else: the list keeps
   * its tournaments, their ids, names, images and round ids.
   */
  lemma EditShape(tournaments: seq<Tournament>, tournamentId: string, roundId: string, edit: RoundEdit)
    ensures var r := EditTournaments(tournaments, tournamentId, roundId, edit);
      && |r| == |tournaments|
      && (forall i :: 0 <= i < |r| ==>
            && r[i].id == tournaments[i].id
            && r[i].name == tournaments[i].name
            && r[i].imageUrl == tournaments[i].imageUrl
            && |r[i].rounds| == |tournaments[i].rounds|)
      && (forall i, j :: 0 <= i < |r| && 0 <= j < |r[i].rounds| ==>
            var before := tournaments[i].rounds[j];
            && r[i].rounds[j].id == before.id
            && r[i].rounds[j] == (if tournaments[i].id == tournamentId && before.id == roundId then ApplyEdit(before, edit) else before))
  {
  }

  /**
   * `updateRoundResults`: every round it rewrites holds the given games and
   * scorers and counts from then on; its picks, name and deadline stay.
   */
  lemma ResultsEntered(tournaments: seq<Tournament>, tournamentId: string, roundId: string, games: seq<Game>, scorers: map<string, nat>,
                       i: nat, j: nat)
    requires i < |tournaments| && j < |tournaments[i].rounds|
    requires tournaments[i].id == tournamentId && tournaments[i].rounds[j].id == roundId
    ensures var after := EditTournaments(tournaments, tournamentId, roundId, SetResults(games, scorers))[i].rounds[j];
      var before := tournaments[i].rounds[j];
      && after.resultsEntered && after.games == games && after.scorers == scorers
      && after.topScorerBets == before.topScorerBets && after.name == before.name && after.deadline == before.deadline
  {
    EditShape(tournaments, tournamentId, roundId, SetResults(games, scorers));
  }

  /** `updateRoundResults` run twice with the same arguments leaves what running it once leaves. */
  lemma ResultsIdempotent(tournaments: seq<Tournament>, tournamentId: string, roundId: string, games: seq<Game>, scorers: map<string, nat>)
    ensures var edit := SetResults(games, scorers);
      var once := EditTournaments(tournaments, tournamentId, roundId, edit);
      EditTournaments(once, tournamentId, roundId, edit) == once
  {
    var edit := SetResults(games, scorers);
    var once := EditTournaments(tournaments, tournamentId, roundId, edit);
    var twice := EditTournaments(once, tournamentId, roundId, edit);
    forall i | 0 <= i < |once| ensures twice[i] == once[i] {
      if once[i].id == tournamentId {
        assert EditRounds(once[i].rounds, roundId, edit) == once[i].rounds;
      }
    }
  }

  /** `submitBets` records the user's pick in the round and leaves every other user's pick alone. */
  lemma PickRecorded(tournaments: seq<Tournament>, tournamentId: string, roundId: string, userId: string, playerId: string,
                     i: nat, j: nat)
    requires i < |tournaments| && j < |tournaments[i].rounds|
    requires tournaments[i].id == tournamentId && tournaments[i].rounds[j].id == roundId
    ensures var after := EditTournaments(tournaments, tournamentId, roundId, SetPick(userId, playerId))[i].rounds[j];
      var before := tournaments[i].rounds[j];
      && userId in after.topScorerBets && after.topScorerBets[userId] == playerId
      && (forall u :: u != userId ==> (u in after.topScorerBets <==> u in before.topScorerBets))
      && (forall u :: u != userId && u in before.topScorerBets ==> after.topScorerBets[u] == before.topScorerBets[u])
      && after.games == before.games && after.scorers == before.scorers && after.resultsEntered == before.resultsEntered
  {
    EditShape(tournaments, tournamentId, roundId, SetPick(userId, playerId));
  }

  // -------------------------------------------- what the edits do to boards

  /** Lists with the same ids in the same places find a tournament id at the same place. */
  lemma {:induction false} SameIdsSameIndex(ts1: seq<Tournament>, ts2: seq<Tournament>, tournamentId: string)
    requires |ts1| == |ts2|
    requires forall i :: 0 <= i < |ts1| ==> ts1[i].id == ts2[i].id
    ensures Seqs.FirstIndex(ts1, Scoring.TournamentWithId(tournamentId))
         == Seqs.FirstIndex(ts2, Scoring.TournamentWithId(tournamentId))
  {
    if ts1 != [] && ts1[0].id != tournamentId {
      SameIdsSameIndex(ts1[1..], ts2[1..], tournamentId);
    }
  }

  /**
   * Two lists with the same ids in the same places, whose tournaments
   * credit every user alike, give every tournament id the same leaderboard.
   */
  lemma BoardsAgree(users: seq<User>, ts1: seq<Tournament>, ts2: seq<Tournament>, bets: seq<Bet>, tournamentId: string)
    requires |ts1| == |ts2|
    requires forall i :: 0 <= i < |ts1| ==> ts1[i].id == ts2[i].id
    requires forall i, u :: 0 <= i < |ts1| ==> Scoring.RoundsTally(u, ts1[i].rounds, bets) == Scoring.RoundsTally(u, ts2[i].rounds, bets)
    ensures Scoring.Leaderboard(users, ts1, bets, tournamentId) == Scoring.Leaderboard(users, ts2, bets, tournamentId)
  {
    SameIdsSameIndex(ts1, ts2, tournamentId);
    match Seqs.FirstIndex(ts1, Scoring.TournamentWithId(tournamentId))
    case None =>
    case Some(i) =>
      var ps := Scoring.Participants(users);
      assert Scoring.Standings(ps, ts1[i].rounds, bets) == Scoring.Standings(ps, ts2[i].rounds, bets);
  }

  /** A round without results adds nothing to what a user accrues. */
  lemma AppendOpenRound(u: string, rounds: seq<Round>, round: Round, bets: seq<Bet>)
    requires !round.resultsEntered
    ensures Scoring.RoundsTally(u, rounds + [round], bets) == Scoring.RoundsTally(u, rounds, bets)
  {
    Scoring.RoundsTallySnoc(u, rounds, round, bets);
    assert Scoring.RoundTally(u, round, bets) == Scoring.Zero();
    Scoring.PlusZero(Scoring.RoundsTally(u, rounds, bets));
  }

  lemma AppendRoundAt(tournaments: seq<Tournament>, tournamentId: string, round: Round, bets: seq<Bet>, i: nat, u: string)
    requires i < |tournaments| && !round.resultsEntered
    ensures Scoring.RoundsTally(u, AppendRound(tournaments, tournamentId, round)[i].rounds, bets)
         == Scoring.RoundsTally(u, tournaments[i].rounds, bets)
  {
    if tournaments[i].id == tournamentId {
      AppendOpenRound(u, tournaments[i].rounds, round, bets);
    }
  }

  /** `addRound` changes no leaderboard: the new round has no results. */
  lemma AddRoundKeepsBoards(users: seq<User>, tournaments: seq<Tournament>, bets: seq<Bet>,
                            tournamentId: string, name: string, deadline: int, now: nat, anyId: string)
    ensures var after := AppendRound(tournaments, tournamentId, NewRound(tournamentId, name, deadline, now));
      Scoring.Leaderboard(users, after, bets, anyId) == Scoring.Leaderboard(users, tournaments, bets, anyId)
  {
    var round := NewRound(tournamentId, name, deadline, now);
    var after := AppendRound(tournaments, tournamentId, round);
    forall i, u | 0 <= i < |after|
      ensures Scoring.RoundsTally(u, after[i].rounds, bets) == Scoring.RoundsTally(u, tournaments[i].rounds, bets)
    {
      AppendRoundAt(tournaments, tournamentId, round, bets, i, u);
    }
    BoardsAgree(users, after, tournaments, bets, anyId);
  }

  /** No bet earns anything on a game missing a final score. */
  lemma {:induction false} UnscoredGameTally(u: string, game: Game, bets: seq<Bet>)
    requires game.finalScoreA.None? || game.finalScoreB.None?
    ensures Scoring.BetsTally(u, game, bets) == Scoring.Zero()
  {
    if bets != [] {
      UnscoredGameTally(u, game, bets[..|bets| - 1]);
      assert Scoring.BetCredit(u, game, bets[|bets| - 1]) == Scoring.Zero();
      Scoring.PlusZero(Scoring.Zero());
    }
  }

  /** Appending a game without a final score to a round leaves what it credits unchanged. */
  lemma AppendUnscoredGameRound(u: string, round: Round, game: Game, bets: seq<Bet>)
    requires game.finalScoreA.None? || game.finalScoreB.None?
    ensures Scoring.RoundTally(u, ApplyEdit(round, AppendGame(game)), bets) == Scoring.RoundTally(u, round, bets)
  {
    if round.resultsEntered {
      var games := round.games + [game];
      assert games[..|games| - 1] == round.games;
      UnscoredGameTally(u, game, Scoring.BetsOnGame(bets, game.id));
      var before := Scoring.GamesTally(u, round.games, bets);
      assert Scoring.GamesTally(u, games, bets) == before.Plus(Scoring.Zero());
      Scoring.PlusZero(before);
    }
  }

  lemma EditRoundsSnoc(rounds: seq<Round>, roundId: string, edit: RoundEdit)
    requires rounds != []
    ensures var last := rounds[|rounds| - 1];
      EditRounds(rounds, roundId, edit)
        == EditRounds(rounds[..|rounds| - 1], roundId, edit) + [if last.id == roundId then ApplyEdit(last, edit) else last]
  {
  }

  /** Appending a game without a final score to rounds leaves what every user accrues unchanged. */
  lemma {:induction false} AppendUnscoredGame(u: string, rounds: seq<Round>, roundId: string, game: Game, bets: seq<Bet>)
    requires game.finalScoreA.None? || game.finalScoreB.None?
    ensures Scoring.RoundsTally(u, EditRounds(rounds, roundId, AppendGame(game)), bets) == Scoring.RoundsTally(u, rounds, bets)
  {
    if rounds != [] {
      var n := |rounds|;
      var init, last := rounds[..n - 1], rounds[n - 1];
      assert rounds == init + [last];
      var editedLast := if last.id == roundId then ApplyEdit(last, AppendGame(game)) else last;
      EditRoundsSnoc(rounds, roundId, AppendGame(game));
      var edited := EditRounds(init, roundId, AppendGame(game));
      AppendUnscoredGame(u, init, roundId, game, bets);
      if last.id == roundId {
        AppendUnscoredGameRound(u, last, game, bets);
      } else {
        assert editedLast == last;
      }
      Scoring.RoundsTallySnoc(u, edited, editedLast, bets);
      Scoring.RoundsTallySnoc(u, init, last, bets);
      calc {
        Scoring.RoundsTally(u, EditRounds(rounds, roundId, AppendGame(game)), bets);
        Scoring.RoundsTally(u, edited + [editedLast], bets);
        Scoring.RoundsTally(u, edited, bets).Plus(Scoring.RoundTally(u, editedLast, bets));
        Scoring.RoundsTally(u, init, bets).Plus(Scoring.RoundTally(u, last, bets));
        Scoring.RoundsTally(u, rounds, bets);
      }
    }
  }

  /** `addGameToRound` with a game that has no result yet changes no leaderboard. */
  lemma AddGameKeepsBoards(users: seq<User>, tournaments: seq<Tournament>, bets: seq<Bet>,
                           tournamentId: string, roundId: string, data: GameData, now: nat, anyId: string)
    requires data.finalScoreA.None? || data.finalScoreB.None?
    ensures var after := EditTournaments(tournaments, tournamentId, roundId, AppendGame(NewGame(data, now)));
      Scoring.Leaderboard(users, after, bets, anyId) == Scoring.Leaderboard(users, tournaments, bets, anyId)
  {
    var game := NewGame(data, now);
    var after := EditTournaments(tournaments, tournamentId, roundId, AppendGame(game));
    forall i, u | 0 <= i < |after|
      ensures Scoring.RoundsTally(u, after[i].rounds, bets) == Scoring.RoundsTally(u, tournaments[i].rounds, bets)
    {
      AppendUnscoredGame(u, tournaments[i].rounds, roundId, game, bets);
    }
    BoardsAgree(users, after, tournaments, bets, anyId);
  }

  /** `updateTournament` changes no leaderboard. */
  lemma RenameKeepsBoards(users: seq<User>, tournaments: seq<Tournament>, bets: seq<Bet>,
                          tournamentId: string, name: string, imageUrl: string, anyId: string)
    ensures var after := Rename(tournaments, tournamentId, name, imageUrl);
      Scoring.Leaderboard(users, after, bets, anyId) == Scoring.Leaderboard(users, tournaments, bets, anyId)
  {
    BoardsAgree(users, Rename(tournaments, tournamentId, name, imageUrl), tournaments, bets, anyId);
  }

  /** Removing the tournaments with one id leaves the first tournament with any other id in front. */
  lemma {:induction false} RemoveKeepsOthers(tournaments: seq<Tournament>, tournamentId: string, otherId: string)
    requires otherId != tournamentId
    ensures Scoring.FindTournament(Remove(tournaments, tournamentId), otherId) == Scoring.FindTournament(tournaments, otherId)
  {
    if tournaments != [] {
      var t, rest := tournaments[0], tournaments[1..];
      var q := Scoring.TournamentWithId(otherId);
      var removed, restRemoved := Remove(tournaments, tournamentId), Remove(rest, tournamentId);
      RemoveKeepsOthers(rest, tournamentId, otherId);
      assert tournaments == [t] + rest;
      Seqs.FindCons(t, rest, q);
      assert Seqs.Find(tournaments, q) == if t.id == otherId then Some(t) else Seqs.Find(rest, q);
      if t.id != tournamentId {
        assert removed == [t] + restRemoved;
        Seqs.FindCons(t, restRemoved, q);
        assert Seqs.Find(removed, q) == if t.id == otherId then Some(t) else Seqs.Find(restRemoved, q);
      } else {
        assert removed == [] + restRemoved;
        assert [] + restRemoved == restRemoved;
      }
    }
  }

  /**
   * `deleteTournament`: the deleted id has an empty leaderboard afterwards,
   * and every other id keeps its leaderboard.
   */
  lemma DeleteBoards(users: seq<User>, tournaments: seq<Tournament>, bets: seq<Bet>, tournamentId: string, anyId: string)
    ensures var after := Remove(tournaments, tournamentId);
      Scoring.Leaderboard(users, after, bets, anyId)
        == if anyId == tournamentId then [] else Scoring.Leaderboard(users, tournaments, bets, anyId)
  {
    var after := Remove(tournaments, tournamentId);
    if anyId == tournamentId {
      forall i | 0 <= i < |after| ensures after[i].id != tournamentId {
        assert after[i] in after;
      }
    } else {
      RemoveKeepsOthers(tournaments, tournamentId, anyId);
    }
  }

  // ------------------------------------------------------------- bets

  /** `tournaments.find(…)?.rounds.find(…)?.games.map(g => g.id) || []` */
  function RoundGameIds(tournaments: seq<Tournament>, tournamentId: string, roundId: string): seq<string> {
    match Scoring.FindTournament(tournaments, tournamentId)
    case None => []
    case Some(t) =>
      match Seqs.Find(t.rounds, RoundWithId(roundId))
      case None => []
      case Some(r) => GameIds(r.games)
  }

  function RoundWithId(roundId: string): Round -> bool {
    (r: Round) => r.id == roundId
  }

  /** The bets `submitBets` keeps: all but the user's bets on the round's games. */
  function KeepBets(bets: seq<Bet>, userId: string, gameIds: seq<string>): seq<Bet> {
    Seqs.Filter(bets, NotReplaced(userId, gameIds))
  }

  function NotReplaced(userId: string, gameIds: seq<string>): Bet -> bool {
    (b: Bet) => !(b.userId == userId && b.gameId in gameIds)
  }

  /** `[...filteredBets, ...userBets]` */
  function Resubmit(bets: seq<Bet>, userId: string, gameIds: seq<string>, userBets: seq<Bet>): seq<Bet> {
    KeepBets(bets, userId, gameIds) + userBets
  }

  /**
   * Submitting replaces the user's bets on the round: afterwards the pool
   * holds every other bet it held, the submitted bets at its end, and no
   * earlier bet of the user on one of the round's games.
   */
  lemma ResubmitReplaces(bets: seq<Bet>, userId: string, gameIds: seq<string>, userBets: seq<Bet>)
    ensures var r := Resubmit(bets, userId, gameIds, userBets);
      && r[|r| - |userBets|..] == userBets
      && (forall b :: b in r[..|r| - |userBets|] <==> b in bets && !(b.userId == userId && b.gameId in gameIds))
  {
    var r := Resubmit(bets, userId, gameIds, userBets);
    assert r[..|r| - |userBets|] == KeepBets(bets, userId, gameIds);
  }

  /** Submitting the same bets for a round twice is submitting them once. */
  lemma ResubmitIdempotent(bets: seq<Bet>, userId: string, gameIds: seq<string>, userBets: seq<Bet>)
    requires forall i :: 0 <= i < |userBets| ==> userBets[i].userId == userId && userBets[i].gameId in gameIds
    ensures Resubmit(Resubmit(bets, userId, gameIds, userBets), userId, gameIds, userBets)
         == Resubmit(bets, userId, gameIds, userBets)
  {
    var p := NotReplaced(userId, gameIds);
    var kept := KeepBets(bets, userId, gameIds);
    Seqs.FilterConcat(kept, userBets, p);
    KeptStayKept(bets, userId, gameIds);
    Seqs.FilterNone(userBets, p);
    assert kept + [] == kept;
  }

  /** The bets kept once are kept again. */
  lemma KeptStayKept(bets: seq<Bet>, userId: string, gameIds: seq<string>)
    ensures var kept := KeepBets(bets, userId, gameIds);
      Seqs.Filter(kept, NotReplaced(userId, gameIds)) == kept
  {
    var p := NotReplaced(userId, gameIds);
    var kept := KeepBets(bets, userId, gameIds);
    forall i | 0 <= i < |kept| ensures p(kept[i]) {
      assert kept[i] in kept;
    }
    Seqs.FilterAll(kept, p);
  }

  /** `{ bets: roundBets, topScorer }` */
  datatype UserRoundBets = UserRoundBets(bets: seq<Bet>, topScorer: Option<Player>)

  /** `round.games.some(g => g.id === gameId)` */
  predicate HasGame(round: Round, gameId: string) {
    exists g :: g in round.games && g.id == gameId
  }

  function InRoundBy(userId: string, round: Round): Bet -> bool {
    (b: Bet) => b.userId == userId && HasGame(round, b.gameId)
  }

  function PlayerWithId(playerId: string): Player -> bool {
    (p: Player) => p.id == playerId
  }

  /**
   * `getUserBetsForRound`: the user's bets on the round's games, and the
   * player the user picked as top scorer, when the pick names a known player.
   */
  function UserBetsForRound(bets: seq<Bet>, players: seq<Player>, userId: string, round: Round): (r: UserRoundBets)
    ensures forall b :: b in r.bets <==> b in bets && b.userId == userId && HasGame(round, b.gameId)
    ensures r.topScorer.Some? ==> && userId in round.topScorerBets
                                  && r.topScorer.value in players
                                  && r.topScorer.value.id == round.topScorerBets[userId]
    ensures r.topScorer.None? <==> (|| userId !in round.topScorerBets
                                    || forall i :: 0 <= i < |players| ==> players[i].id != round.topScorerBets[userId])
  {
    var roundBets := Seqs.Filter(bets, InRoundBy(userId, round));
    var topScorer := if userId in round.topScorerBets then Seqs.Find(players, PlayerWithId(round.topScorerBets[userId])) else None;
    UserRoundBets(roundBets, topScorer)
  }

  // ------------------------------------------------------- achievements

  predicate HasFirstBet(achievements: seq<UserAchievement>, userId: string) {
    exists i :: 0 <= i < |achievements| && achievements[i].userId == userId && achievements[i].achievement == FirstBet
  }

  /** No user holds the first-bet badge twice. */
  predicate FirstBetOnce(achievements: seq<UserAchievement>) {
    forall i, j :: 0 <= i < j < |achievements| && achievements[i].achievement == FirstBet && achievements[j].achievement == FirstBet
      ==> achievements[i].userId != achievements[j].userId
  }

  /** The first-bet badge, dated now, for a user who does not hold it yet. */
  function GrantFirstBet(achievements: seq<UserAchievement>, userId: string, now: int): (r: seq<UserAchievement>)
    ensures HasFirstBet(r, userId)
    ensures HasFirstBet(achievements, userId) ==> r == achievements
    ensures !HasFirstBet(achievements, userId) ==> r == achievements + [UserAchievement(userId, FirstBet, now)]
  {
    if HasFirstBet(achievements, userId) then achievements
    else
      var r := achievements + [UserAchievement(userId, FirstBet, now)];
      assert r[|achievements|].userId == userId;
      r
  }

  /** Granting the badge keeps it unique per user. */
  lemma GrantKeepsFirstBetOnce(achievements: seq<UserAchievement>, userId: string, now: int)
    requires FirstBetOnce(achievements)
    ensures FirstBetOnce(GrantFirstBet(achievements, userId, now))
  {
  }

  /** Granting twice grants once: a later submission keeps the first date. */
  lemma GrantIdempotent(achievements: seq<UserAchievement>, userId: string, now1: int, now2: int)
    ensures GrantFirstBet(GrantFirstBet(achievements, userId, now1), userId, now2) == GrantFirstBet(achievements, userId, now1)
  {
  }

  // ---------------------------------------------------------- the store

  /** The provider's state and the operations it exposes. */
  class DataStore {
    var tournaments: seq<Tournament>
    var players: seq<Player>
    var bets: seq<Bet>
    var achievements: seq<UserAchievement>
    var selectedTournament: Option<Tournament>

    /** The invariant the store keeps: no user holds the first-bet badge twice. */
    predicate Valid()
      reads this
    {
      FirstBetOnce(achievements)
    }

    /** The initial state: the seed lists, no achievements, nothing selected. */
    constructor (tournaments: seq<Tournament>, players: seq<Player>, bets: seq<Bet>)
      ensures this.tournaments == tournaments && this.players == players && this.bets == bets
      ensures achievements == [] && selectedTournament == None
      ensures Valid()
    {
      this.tournaments := tournaments;
      this.players := players;
      this.bets := bets;
      achievements := [];
      selectedTournament := None;
    }

    /** `selectTournament` */
    method SelectTournament(tournamentId: Option<string>)
      modifies this`selectedTournament
      ensures selectedTournament == Selection(tournaments, tournamentId)
    {
      if tournamentId.None? || tournamentId.value == "" {
        selectedTournament := None;
        return;
      }
      selectedTournament := Scoring.FindTournament(tournaments, tournamentId.value);
    }

    /** `addTournament`; an image URL the caller leaves out is `None`. */
    method AddTournament(name: string, imageUrl: Option<string>, now: nat)
      modifies this`tournaments
      ensures tournaments == old(tournaments) + [NewTournament(name, imageUrl, now)]
    {
      tournaments := tournaments + [NewTournament(name, imageUrl, now)];
    }

    /** `updateTournament` */
    method UpdateTournament(tournamentId: string, name: string, imageUrl: string)
      modifies this`tournaments
      ensures tournaments == Rename(old(tournaments), tournamentId, name, imageUrl)
    {
      tournaments := Rename(tournaments, tournamentId, name, imageUrl);
    }

    /** `deleteTournament`: the selection is cleared when it is the deleted tournament. */
    method DeleteTournament(tournamentId: string)
      modifies this`tournaments, this`selectedTournament
      ensures tournaments == Remove(old(tournaments), tournamentId)
      ensures selectedTournament == if old(selectedTournament).Some? && old(selectedTournament).value.id == tournamentId
                                    then None else old(selectedTournament)
    {
      tournaments := Remove(tournaments, tournamentId);
      if selectedTournament.Some? && selectedTournament.value.id == tournamentId {
        selectedTournament := None;
      }
    }

    /** `addRound` */
    method AddRound(tournamentId: string, roundName: string, deadline: int, now: nat)
      modifies this`tournaments
      ensures tournaments == AppendRound(old(tournaments), tournamentId, NewRound(tournamentId, roundName, deadline, now))
    {
      tournaments := AppendRound(tournaments, tournamentId, NewRound(tournamentId, roundName, deadline, now));
    }

    /** `addGameToRound` */
    method AddGameToRound(tournamentId: string, roundId: string, data: GameData, now: nat)
      modifies this`tournaments
      ensures tournaments == EditTournaments(old(tournaments), tournamentId, roundId, AppendGame(NewGame(data, now)))
    {
      tournaments := EditTournaments(tournaments, tournamentId, roundId, AppendGame(NewGame(data, now)));
    }

    /**
     * `submitBets`: replaces the user's bets on the round's games (the round
     * is looked up before anything changes), records the top-scorer pick and
     * grants the first-bet badge once.
     */
    method SubmitBets(tournamentId: string, roundId: string, userBets: seq<Bet>, topScorerId: string, userId: string, now: nat)
      requires Valid()
      modifies this`bets, this`tournaments, this`achievements
      ensures Valid()
      ensures bets == Resubmit(old(bets), userId, RoundGameIds(old(tournaments), tournamentId, roundId), userBets)
      ensures tournaments == EditTournaments(old(tournaments), tournamentId, roundId, SetPick(userId, topScorerId))
      ensures achievements == GrantFirstBet(old(achievements), userId, now)
    {
      var roundGameIds := RoundGameIds(tournaments, tournamentId, roundId);
      bets := KeepBets(bets, userId, roundGameIds) + userBets;
      tournaments := EditTournaments(tournaments, tournamentId, roundId, SetPick(userId, topScorerId));
      if !HasFirstBet(achievements, userId) {
        GrantKeepsFirstBetOnce(achievements, userId, now);
        achievements := achievements + [UserAchievement(userId, FirstBet, now)];
      }
    }

    /** `updateRoundResults` */
    method UpdateRoundResults(tournamentId: string, roundId: string, updatedGames: seq<Game>, scorers: map<string, nat>)
      modifies this`tournaments
      ensures tournaments == EditTournaments(old(tournaments), tournamentId, roundId, SetResults(updatedGames, scorers))
    {
      tournaments := EditTournaments(tournaments, tournamentId, roundId, SetResults(updatedGames, scorers));
    }

    /** `getUserBetsForRound` */
    function GetUserBetsForRound(userId: string, round: Round): UserRoundBets
      reads this
    {
      UserBetsForRound(bets, players, userId, round)
    }

    /**
     * `getLeaderboard`, over the given user list: the loops compute the
     * leaderboard `Scoring.Leaderboard` specifies.
     */
    method GetLeaderboard(users: seq<User>, tournamentId: string) returns (board: seq<Score>)
      ensures board == Scoring.Leaderboard(users, tournaments, bets, tournamentId)
    {
      var found := Scoring.FindTournament(tournaments, tournamentId);
      if found.None? {
        return [];
      }
      var tournament := found.value;
      var participants := Scoring.Participants(users);
      var scores, order := InitAccumulators(participants);
      scores := CreditRounds(scores, tournament.rounds, bets);
      var values := seq(|order|, i requires 0 <= i < |order| && order[i] in scores => scores[order[i]]);
      assert values == Scoring.Standings(participants, tournament.rounds, bets);
      board := Scoring.RankSort(values);
    }
  }
}
