/**
 * The records of the pool (`types.ts`). Optional fields are `Option`s;
 * the two per-round dictionaries are maps; JavaScript numbers that only ever
 * hold counts, scores and goals are `nat`, timestamps are `int`.
 */
module Types {
  import opened Wrappers

  datatype User = User(
    id: string,
    firstName: string,
    lastName: string,
    teamName: string,
    email: string,
    phone: string,
    passwordHash: string,
    avatarUrl: Option<string>,
    isAdmin: bool)

  datatype Player = Player(id: string, name: string, team: string)

  /** `finalScoreA`/`finalScoreB` are `None` until a result is recorded. */
  datatype Game = Game(
    id: string,
    teamA: string,
    teamB: string,
    teamALogo: Option<string>,
    teamBLogo: Option<string>,
    finalScoreA: Option<nat>,
    finalScoreB: Option<nat>)

  datatype Bet = Bet(userId: string, gameId: string, scoreA: nat, scoreB: nat)

  /**
   * `topScorerBets` maps a user id to the player id picked as top scorer;
   * `scorers` maps a player id to the goals scored in the round.
   */
  datatype Round = Round(
    id: string,
    name: string,
    games: seq<Game>,
    deadline: int,
    topScorerBets: map<string, string>,
    resultsEntered: bool,
    scorers: map<string, nat>)

  datatype Tournament = Tournament(
    id: string,
    name: string,
    imageUrl: Option<string>,
    rounds: seq<Round>)

  /** One leaderboard line; `topScorerGoals` sums the goals of the user's top-scorer picks. */
  datatype Score = Score(
    userId: string,
    displayName: string,
    userAvatar: Option<string>,
    totalPoints: nat,
    exactScores: nat,
    topScorerGoals: nat)

  /** The badge kinds; the display strings are given by `Label`. */
  datatype Achievement = FirstBet | PerfectRound | TopScorerGenius | HatTrick | PodiumFinish {
    function Label(): string {
      match this
      case FirstBet => "Primeiro Palpite"
      case PerfectRound => "Rodada Perfeita"
      case TopScorerGenius => "Gênio do Artilheiro"
      case HatTrick => "Placar Exato Triplo"
      case PodiumFinish => "Pódio"
    }
  }

  datatype UserAchievement = UserAchievement(userId: string, achievement: Achievement, date: int)

  /** The ids of a round's games, in order (`round.games.map(g => g.id)`). */
  function GameIds(games: seq<Game>): (ids: seq<string>)
    ensures |ids| == |games|
    ensures forall i :: 0 <= i < |games| ==> ids[i] == games[i].id
  {
    seq(|games|, i requires 0 <= i < |games| => games[i].id)
  }
}
