/**
 * What `getLeaderboard` computes, stated as functions: the points one bet
 * earns, what each user accrues from a tournament's rounds, the initial
 * accumulators built from the user list, and the stable three-key ranking.
 * The imperative computation in `DataContext` is proved equal to `Leaderboard`.
 */
module Scoring {
  import opened Wrappers
  import opened Types
  import Seqs
  import Text

  // ---------------------------------------------------------------- one bet

  /** The three-way result of a score pair: 'A' (side A won), 'B' or 'D' (draw). */
  datatype Outcome = HomeWin | AwayWin | Draw

  function OutcomeOf(a: nat, b: nat): Outcome {
    if a > b then HomeWin else if a < b then AwayWin else Draw
  }

  /** What a leaderboard line accrues: points, exact scores and top-scorer goals. */
  datatype Tally = Tally(points: nat, exact: nat, goals: nat) {
    function Plus(other: Tally): Tally {
      Tally(points + other.points, exact + other.exact, goals + other.goals)
    }
  }

  function Zero(): Tally {
    Tally(0, 0, 0)
  }

  lemma PlusZero(t: Tally)
    ensures t.Plus(Zero()) == t
  {
  }

  /** Points for one bet against a recorded final score. */
  function BetAward(bet: Bet, finalA: nat, finalB: nat): Tally {
    if bet.scoreA == finalA && bet.scoreB == finalB then Tally(3, 1, 0)
    else if OutcomeOf(bet.scoreA, bet.scoreB) == OutcomeOf(finalA, finalB) then Tally(1, 0, 0)
    else Zero()
  }

  /**
   * The scoring rule: an exact score earns 3 points and one exact score; a
   * correct outcome with a wrong score earns 1 point; anything else nothing.
   * The two awards exclude each other, and no goals are ever credited.
   */
  lemma BetAwardRule(bet: Bet, finalA: nat, finalB: nat)
    ensures var t := BetAward(bet, finalA, finalB);
      var isExact := bet.scoreA == finalA && bet.scoreB == finalB;
      var sameOutcome := OutcomeOf(bet.scoreA, bet.scoreB) == OutcomeOf(finalA, finalB);
      && (t.points == 3 <==> isExact)
      && (t.points == 1 <==> !isExact && sameOutcome)
      && (t.points == 0 <==> !sameOutcome)
      && t.exact == (if isExact then 1 else 0)
      && t.goals == 0
  {
  }

  /** The outcome is the sign of the goal difference: 0-0 is a draw like any equal pair. */
  lemma OutcomeIsSign(a: nat, b: nat)
    ensures OutcomeOf(a, b) == HomeWin <==> a - b > 0
    ensures OutcomeOf(a, b) == AwayWin <==> a - b < 0
    ensures OutcomeOf(a, b) == Draw <==> a == b
  {
  }

  /**
   * `x > y ? 'A' : x < y ? 'B' : 'D'` on JavaScript numbers: every
   * comparison with `NaN` is false, so a pair with `NaN` reads as a draw.
   */
  function JsOutcome(a: Text.JsNumber, b: Text.JsNumber): (r: Outcome)
    ensures a.Num? && b.Num? ==> r == OutcomeOf(a.value, b.value)
    ensures a.NaN? || b.NaN? ==> r == Draw
  {
    match (a, b)
    case (Num(x), Num(y)) => OutcomeOf(x, y)
    case _ => Draw
  }

  /**
   * The per-bet rule of `getLeaderboard` on JavaScript numbers, where a bet
   * or a final score may be `NaN`: `===` is false whenever `NaN` is involved.
   */
  function JsBetAward(betA: Text.JsNumber, betB: Text.JsNumber, finalA: Text.JsNumber, finalB: Text.JsNumber): Tally {
    if betA.Num? && betB.Num? && finalA.Num? && finalB.Num? && betA == finalA && betB == finalB then Tally(3, 1, 0)
    else if JsOutcome(betA, betB) == JsOutcome(finalA, finalB) then Tally(1, 0, 0)
    else Zero()
  }

  /** On whole numbers the rule on JavaScript numbers is the scoring rule. */
  lemma JsBetAwardOnNumbers(bet: Bet, finalA: nat, finalB: nat)
    ensures JsBetAward(Text.Num(bet.scoreA), Text.Num(bet.scoreB), Text.Num(finalA), Text.Num(finalB)) == BetAward(bet, finalA, finalB)
  {
  }

  // ------------------------------------------------- what a user accrues

  /** The bets in the pool on a game id, in pool order (`bets.filter(b => b.gameId === game.id)`). */
  function BetsOnGame(bets: seq<Bet>, gameId: string): seq<Bet> {
    Seqs.Filter(bets, OnGame(gameId))
  }

  function OnGame(gameId: string): Bet -> bool {
    (b: Bet) => b.gameId == gameId
  }

  /** What one bet adds to user `u`: nothing unless it is `u`'s and the game has both final scores. */
  function BetCredit(u: string, game: Game, bet: Bet): Tally {
    if bet.userId == u && game.finalScoreA.Some? && game.finalScoreB.Some?
    then BetAward(bet, game.finalScoreA.value, game.finalScoreB.value)
    else Zero()
  }

  function BetsTally(u: string, game: Game, bets: seq<Bet>): Tally {
    if bets == [] then Zero()
    else BetsTally(u, game, bets[..|bets| - 1]).Plus(BetCredit(u, game, bets[|bets| - 1]))
  }

  /** What `u` earns on one game: every bet in the pool with that game id counts. */
  function GameTally(u: string, game: Game, bets: seq<Bet>): Tally {
    BetsTally(u, game, BetsOnGame(bets, game.id))
  }

  function GamesTally(u: string, games: seq<Game>, bets: seq<Bet>): Tally {
    if games == [] then Zero()
    else GamesTally(u, games[..|games| - 1], bets).Plus(GameTally(u, games[|games| - 1], bets))
  }

  /** `round.scorers[playerId] || 0` */
  function GoalsOf(round: Round, playerId: string): nat {
    if playerId in round.scorers then round.scorers[playerId] else 0
  }

  /** What `u`'s top-scorer pick earns: 3 points per goal, and the goals, when the pick scored. */
  function PickTally(u: string, round: Round): Tally {
    if u in round.topScorerBets && GoalsOf(round, round.topScorerBets[u]) > 0
    then var goals := GoalsOf(round, round.topScorerBets[u]); Tally(3 * goals, 0, goals)
    else Zero()
  }

  /** A round counts only once its results are entered. */
  function RoundTally(u: string, round: Round, bets: seq<Bet>): Tally {
    if round.resultsEntered then GamesTally(u, round.games, bets).Plus(PickTally(u, round)) else Zero()
  }

  function RoundsTally(u: string, rounds: seq<Round>, bets: seq<Bet>): Tally {
    if rounds == [] then Zero()
    else RoundsTally(u, rounds[..|rounds| - 1], bets).Plus(RoundTally(u, rounds[|rounds| - 1], bets))
  }

  /** The rounds whose results are entered, in order. */
  function ResultedRounds(rounds: seq<Round>): seq<Round> {
    Seqs.Filter(rounds, IsResulted)
  }

  predicate IsResulted(round: Round) {
    round.resultsEntered
  }

  /**
   * Rounds without entered results contribute nothing: what a user accrues
   * from a tournament is what they accrue from its resulted rounds alone.
   */
  lemma {:induction false} OpenRoundsDoNotCount(u: string, rounds: seq<Round>, bets: seq<Bet>)
    ensures RoundsTally(u, rounds, bets) == RoundsTally(u, ResultedRounds(rounds), bets)
  {
    if rounds != [] {
      var init, last := rounds[..|rounds| - 1], rounds[|rounds| - 1];
      OpenRoundsDoNotCount(u, init, bets);
      ResultedSnoc(rounds);
      if last.resultsEntered {
        RoundsTallySnoc(u, ResultedRounds(init), last, bets);
      } else {
        assert ResultedRounds(init) + [] == ResultedRounds(init);
        assert RoundsTally(u, rounds, bets) == RoundsTally(u, init, bets).Plus(Zero());
        assert RoundsTally(u, init, bets).Plus(Zero()) == RoundsTally(u, init, bets);
      }
    }
  }

  lemma ResultedSnoc(rounds: seq<Round>)
    requires rounds != []
    ensures var last := rounds[|rounds| - 1];
      ResultedRounds(rounds) == ResultedRounds(rounds[..|rounds| - 1]) + (if last.resultsEntered then [last] else [])
  {
    var init, last := rounds[..|rounds| - 1], rounds[|rounds| - 1];
    assert rounds == init + [last];
    Seqs.FilterConcat(init, [last], IsResulted);
    assert ResultedRounds([last]) == (if last.resultsEntered then [last] else []);
  }

  lemma RoundsTallySnoc(u: string, rounds: seq<Round>, last: Round, bets: seq<Bet>)
    ensures RoundsTally(u, rounds + [last], bets) == RoundsTally(u, rounds, bets).Plus(RoundTally(u, last, bets))
  {
    var both := rounds + [last];
    assert both[..|both| - 1] == rounds;
  }

  /** A pick whose player has no recorded goals, or no pick at all, adds nothing. */
  lemma PickRule(u: string, round: Round)
    ensures u !in round.topScorerBets ==> PickTally(u, round) == Zero()
    ensures u in round.topScorerBets ==>
      var goals := GoalsOf(round, round.topScorerBets[u]);
      PickTally(u, round) == (if goals == 0 then Zero() else Tally(3 * goals, 0, goals))
  {
  }

  /**
   * Points are never fewer than three per exact score plus three per
   * top-scorer goal: the rest are the one-point outcome hits.
   */
  lemma {:induction false} PointsCoverExactAndGoals(u: string, rounds: seq<Round>, bets: seq<Bet>)
    ensures var t := RoundsTally(u, rounds, bets); t.points >= 3 * t.exact + 3 * t.goals
  {
    if rounds != [] {
      PointsCoverExactAndGoals(u, rounds[..|rounds| - 1], bets);
      var round := rounds[|rounds| - 1];
      if round.resultsEntered {
        GamesCoverExact(u, round.games, bets);
      }
    }
  }

  lemma {:induction false} GamesCoverExact(u: string, games: seq<Game>, bets: seq<Bet>)
    ensures var t := GamesTally(u, games, bets); t.points >= 3 * t.exact && t.goals == 0
  {
    if games != [] {
      GamesCoverExact(u, games[..|games| - 1], bets);
      var game := games[|games| - 1];
      BetsCoverExact(u, game, BetsOnGame(bets, game.id));
    }
  }

  lemma {:induction false} BetsCoverExact(u: string, game: Game, bets: seq<Bet>)
    ensures var t := BetsTally(u, game, bets); t.points >= 3 * t.exact && t.goals == 0
  {
    if bets != [] {
      var prev := BetsTally(u, game, bets[..|bets| - 1]);
      var c := BetCredit(u, game, bets[|bets| - 1]);
      BetsCoverExact(u, game, bets[..|bets| - 1]);
      assert c.points >= 3 * c.exact && c.goals == 0;
      assert BetsTally(u, game, bets) == prev.Plus(c);
    }
  }

  // ------------------------------------------------------ accumulators

  /** `${user.teamName} (${user.firstName})` */
  function DisplayName(user: User): string {
    user.teamName + " (" + user.firstName + ")"
  }

  function InitialScore(user: User): Score {
    Score(user.id, DisplayName(user), user.avatarUrl, 0, 0, 0)
  }

  /** `users.filter(u => !u.isAdmin)` */
  function Participants(users: seq<User>): seq<User> {
    Seqs.Filter(users, IsParticipant)
  }

  predicate IsParticipant(user: User) {
    !user.isAdmin
  }

  /**
   * The accumulator dictionary after `scores[user.id] = …` for each user in
   * turn: a later user with the same id overwrites the earlier entry.
   */
  function Accumulators(users: seq<User>): (acc: map<string, Score>)
    ensures forall k :: k in acc <==> (exists i :: 0 <= i < |users| && users[i].id == k)
  {
    if users == [] then map[]
    else
      var last := users[|users| - 1];
      Accumulators(users[..|users| - 1])[last.id := InitialScore(last)]
  }

  /**
   * The keys of that dictionary in the order `Object.values` lists them:
   * first-insertion order, each id once.
   */
  function AccumulatorKeys(users: seq<User>): (keys: seq<string>)
    ensures forall k :: k in keys <==> k in Accumulators(users)
    ensures forall i, j :: 0 <= i < j < |keys| ==> keys[i] != keys[j]
  {
    if users == [] then []
    else
      var keys := AccumulatorKeys(users[..|users| - 1]);
      var id := users[|users| - 1].id;
      if id in keys then keys else keys + [id]
  }

  /** Each accumulator starts at zero and belongs to the last user listed with its id. */
  lemma {:induction false} AccumulatorStart(users: seq<User>, k: string) returns (i: nat)
    requires k in Accumulators(users)
    ensures i < |users| && users[i].id == k
    ensures Accumulators(users)[k] == InitialScore(users[i])
    ensures forall j :: i < j < |users| ==> users[j].id != k
  {
    var n := |users|;
    if users[n - 1].id == k {
      i := n - 1;
    } else {
      var init := users[..n - 1];
      i := AccumulatorStart(init, k);
      assert users[i] == init[i];
      forall j | i < j < n ensures users[j].id != k {
        if j < n - 1 {
          assert users[j] == init[j];
        }
      }
    }
  }

  /** Adds a tally to a leaderboard line. */
  function Credit(s: Score, t: Tally): Score {
    s.(totalPoints := s.totalPoints + t.points,
       exactScores := s.exactScores + t.exact,
       topScorerGoals := s.topScorerGoals + t.goals)
  }

  /** The unsorted leaderboard: one line per accumulator key, with what that user accrued. */
  function Standings(participants: seq<User>, rounds: seq<Round>, bets: seq<Bet>): (lines: seq<Score>)
    ensures |lines| == |AccumulatorKeys(participants)|
  {
    var keys := AccumulatorKeys(participants);
    var acc := Accumulators(participants);
    seq(|keys|, i requires 0 <= i < |keys| => Credit(acc[keys[i]], RoundsTally(keys[i], rounds, bets)))
  }

  // ------------------------------------------------------------ ranking

  /** `a` is strictly ahead of `b` on (totalPoints, exactScores, topScorerGoals). */
  predicate Outranks(a: Score, b: Score) {
    || a.totalPoints > b.totalPoints
    || (a.totalPoints == b.totalPoints && a.exactScores > b.exactScores)
    || (a.totalPoints == b.totalPoints && a.exactScores == b.exactScores && a.topScorerGoals > b.topScorerGoals)
  }

  /** Equal on all three keys: the comparator returns 0. */
  predicate SameRank(a: Score, b: Score) {
    a.totalPoints == b.totalPoints && a.exactScores == b.exactScores && a.topScorerGoals == b.topScorerGoals
  }

  predicate SortedByRank(s: seq<Score>) {
    forall i, j :: 0 <= i < j < |s| ==> !Outranks(s[j], s[i])
  }

  predicate DistinctUsers(s: seq<Score>) {
    forall i, j :: 0 <= i < j < |s| ==> s[i].userId != s[j].userId
  }

  /** Places `x` after every line that is not behind it. */
  function Insert(x: Score, s: seq<Score>): (r: seq<Score>)
    ensures multiset(r) == multiset(s) + multiset{x}
    ensures |r| == |s| + 1
  {
    if s == [] then [x]
    else if Outranks(x, s[0]) then [x] + s
    else
      assert s == [s[0]] + s[1..];
      [s[0]] + Insert(x, s[1..])
  }

  /**
   * `Array.prototype.sort` with the leaderboard comparator: a stable sort,
   * given here as insertion of each line, in input order, into the sorted
   * prefix.
   */
  function RankSort(s: seq<Score>): (r: seq<Score>)
    ensures multiset(r) == multiset(s)
    ensures |r| == |s|
  {
    if s == [] then []
    else
      assert s == s[..|s| - 1] + [s[|s| - 1]];
      Insert(s[|s| - 1], RankSort(s[..|s| - 1]))
  }

  lemma {:induction false} InsertSorted(x: Score, s: seq<Score>)
    requires SortedByRank(s)
    ensures SortedByRank(Insert(x, s))
  {
    if s != [] && !Outranks(x, s[0]) {
      InsertSorted(x, s[1..]);
      var r := Insert(x, s[1..]);
      forall j | 0 <= j < |r| ensures !Outranks(r[j], s[0]) {
        assert r[j] in multiset(r);
        if r[j] != x {
          assert r[j] in multiset(s[1..]);
          var k :| 0 <= k < |s[1..]| && s[1..][k] == r[j];
          assert s[k + 1] == r[j];
        }
      }
    }
  }

  /** The sorted leaderboard is ordered best first. */
  lemma {:induction false} RankSortSorted(s: seq<Score>)
    ensures SortedByRank(RankSort(s))
  {
    if s != [] {
      RankSortSorted(s[..|s| - 1]);
      InsertSorted(s[|s| - 1], RankSort(s[..|s| - 1]));
    }
  }

  /** When `x` outranks the head of a sorted list it outranks every element of it. */
  lemma OutranksAll(x: Score, s: seq<Score>)
    requires SortedByRank(s) && s != [] && Outranks(x, s[0])
    ensures forall i :: 0 <= i < |s| ==> Outranks(x, s[i])
  {
  }

  /** The lines of `s` that tie with `k` on all three keys, in order. */
  function RankClass(s: seq<Score>, k: Score): (r: seq<Score>)
    ensures |r| <= |s|
  {
    if s == [] then []
    else (if SameRank(s[0], k) then [s[0]] else []) + RankClass(s[1..], k)
  }

  lemma {:induction false} RankClassConcat(a: seq<Score>, b: seq<Score>, k: Score)
    ensures RankClass(a + b, k) == RankClass(a, k) + RankClass(b, k)
  {
    if a == [] {
      assert a + b == b;
    } else {
      assert (a + b)[1..] == a[1..] + b;
      RankClassConcat(a[1..], b, k);
    }
  }

  lemma {:induction false} RankClassEmpty(s: seq<Score>, k: Score)
    requires forall i :: 0 <= i < |s| ==> !SameRank(s[i], k)
    ensures RankClass(s, k) == []
  {
    if s != [] {
      RankClassEmpty(s[1..], k);
    }
  }

  /** Inserting keeps the lines of each rank class in their order and puts `x` last in its class. */
  lemma {:induction false} InsertStable(x: Score, s: seq<Score>, k: Score)
    requires SortedByRank(s)
    ensures RankClass(Insert(x, s), k) == RankClass(s, k) + RankClass([x], k)
  {
    if s == [] {
      assert Insert(x, s) == [x];
    } else if Outranks(x, s[0]) {
      InsertAhead(x, s, k);
    } else {
      var head, tail := [s[0]], s[1..];
      assert SortedByRank(tail);
      InsertStable(x, tail, k);
      InsertBehind(x, s, k);
    }
  }

  lemma InsertBehind(x: Score, s: seq<Score>, k: Score)
    requires s != [] && !Outranks(x, s[0])
    requires RankClass(Insert(x, s[1..]), k) == RankClass(s[1..], k) + RankClass([x], k)
    ensures RankClass(Insert(x, s), k) == RankClass(s, k) + RankClass([x], k)
  {
    var head, tail := [s[0]], s[1..];
    var rest := Insert(x, tail);
    assert Insert(x, s) == head + rest;
    RankClassConcat(head, rest, k);
    RankClassHead(s, k);
    Seqs.ConcatAssoc(RankClass(head, k), RankClass(tail, k), RankClass([x], k));
  }

  lemma RankClassHead(s: seq<Score>, k: Score)
    requires s != []
    ensures RankClass(s, k) == RankClass([s[0]], k) + RankClass(s[1..], k)
  {
    assert RankClass([s[0]], k) == (if SameRank(s[0], k) then [s[0]] else []) + [];
  }

  lemma InsertAhead(x: Score, s: seq<Score>, k: Score)
    requires SortedByRank(s) && s != [] && Outranks(x, s[0])
    ensures RankClass([x] + s, k) == RankClass(s, k) + RankClass([x], k)
  {
    RankClassConcat([x], s, k);
    if SameRank(x, k) {
      OutranksAll(x, s);
      RankClassEmpty(s, k);
    } else {
      assert RankClass([x], k) == [];
    }
  }

  /**
   * The sort is stable: the lines of any one rank class (equal on all three
   * keys) come out in the order they went in.
   */
  lemma {:induction false} RankSortStable(s: seq<Score>, k: Score)
    ensures RankClass(RankSort(s), k) == RankClass(s, k)
  {
    if s != [] {
      var init, x := s[..|s| - 1], s[|s| - 1];
      RankSortStable(init, k);
      RankSortSorted(init);
      InsertStable(x, RankSort(init), k);
      assert s == init + [x];
      RankClassConcat(init, [x], k);
    }
  }

  lemma {:induction false} InsertDistinct(x: Score, s: seq<Score>)
    requires DistinctUsers(s)
    requires forall i :: 0 <= i < |s| ==> s[i].userId != x.userId
    ensures DistinctUsers(Insert(x, s))
  {
    if s != [] && !Outranks(x, s[0]) {
      InsertDistinct(x, s[1..]);
      var r := Insert(x, s[1..]);
      forall j | 0 <= j < |r| ensures r[j].userId != s[0].userId {
        assert r[j] in multiset(r);
        if r[j] != x {
          assert r[j] in multiset(s[1..]);
          var k :| 0 <= k < |s[1..]| && s[1..][k] == r[j];
          assert s[k + 1] == r[j];
        }
      }
    }
  }

  /** Sorting neither merges nor duplicates users. */
  lemma {:induction false} RankSortDistinct(s: seq<Score>)
    requires DistinctUsers(s)
    ensures DistinctUsers(RankSort(s))
  {
    if s != [] {
      var init, x := s[..|s| - 1], s[|s| - 1];
      RankSortDistinct(init);
      var r := RankSort(init);
      forall i | 0 <= i < |r| ensures r[i].userId != x.userId {
        assert r[i] in multiset(init);
        var k :| 0 <= k < |init| && init[k] == r[i];
      }
      InsertDistinct(x, r);
    }
  }

  // -------------------------------------------------------- leaderboard

  /** `tournaments.find(t => t.id === tournamentId)` */
  function FindTournament(tournaments: seq<Tournament>, tournamentId: string): Option<Tournament> {
    Seqs.Find(tournaments, TournamentWithId(tournamentId))
  }

  function TournamentWithId(tournamentId: string): Tournament -> bool {
    (t: Tournament) => t.id == tournamentId
  }

  /**
   * `getLeaderboard(tournamentId)` over the user list, the tournaments and
   * the bet pool.
   */
  function Leaderboard(users: seq<User>, tournaments: seq<Tournament>, bets: seq<Bet>, tournamentId: string): seq<Score> {
    match FindTournament(tournaments, tournamentId)
    case None => []
    case Some(t) => RankSort(Standings(Participants(users), t.rounds, bets))
  }

  /**
   * The leaderboard of a known tournament: one line per distinct non-admin
   * user id, each holding what that user accrued from the tournament's
   * rounds on top of a zero start, ordered best first.
   */
  lemma LeaderboardLines(users: seq<User>, tournaments: seq<Tournament>, bets: seq<Bet>, tournamentId: string)
    requires FindTournament(tournaments, tournamentId).Some?
    ensures var t := FindTournament(tournaments, tournamentId).value;
      var participants := Participants(users);
      var board := Leaderboard(users, tournaments, bets, tournamentId);
      && SortedByRank(board)
      && DistinctUsers(board)
      && multiset(board) == multiset(Standings(participants, t.rounds, bets))
      && (forall u :: u in participants ==> exists i :: 0 <= i < |board| && board[i].userId == u.id)
      && (forall i :: 0 <= i < |board| ==> LineFor(board[i], participants, t.rounds, bets))
  {
    var t := FindTournament(tournaments, tournamentId).value;
    SortedStandings(Participants(users), t.rounds, bets);
  }

  /** The sorted standings of any participants over any rounds. */
  lemma SortedStandings(participants: seq<User>, rounds: seq<Round>, bets: seq<Bet>)
    ensures var lines := Standings(participants, rounds, bets);
      var board := RankSort(lines);
      && SortedByRank(board)
      && DistinctUsers(board)
      && multiset(board) == multiset(lines)
      && (forall u :: u in participants ==> exists i :: 0 <= i < |board| && board[i].userId == u.id)
      && (forall i :: 0 <= i < |board| ==> LineFor(board[i], participants, rounds, bets))
  {
    var lines := Standings(participants, rounds, bets);
    StandingsDistinct(participants, rounds, bets);
    RankSortSorted(lines);
    RankSortDistinct(lines);
    StandingsCover(participants, rounds, bets);
    forall i | 0 <= i < |lines| ensures LineFor(lines[i], participants, rounds, bets) {
      StandingsAt(participants, rounds, bets, i);
    }
    PermutationKeepsCover(lines, RankSort(lines), participants);
    PermutationKeepsLines(lines, RankSort(lines), participants, rounds, bets);
  }

  /** Reordering the lines keeps every participant covered. */
  lemma PermutationKeepsCover(lines: seq<Score>, board: seq<Score>, participants: seq<User>)
    requires multiset(board) == multiset(lines)
    requires forall u :: u in participants ==> exists i :: 0 <= i < |lines| && lines[i].userId == u.id
    ensures forall u :: u in participants ==> exists i :: 0 <= i < |board| && board[i].userId == u.id
  {
    Seqs.PermutationMembers(lines, board);
    forall u | u in participants ensures exists i :: 0 <= i < |board| && board[i].userId == u.id {
      var k :| 0 <= k < |lines| && lines[k].userId == u.id;
      assert lines[k] in board;
      var i :| 0 <= i < |board| && board[i] == lines[k];
    }
  }

  /** Reordering the lines keeps every line accurate. */
  lemma PermutationKeepsLines(lines: seq<Score>, board: seq<Score>, participants: seq<User>, rounds: seq<Round>, bets: seq<Bet>)
    requires multiset(board) == multiset(lines)
    requires forall i :: 0 <= i < |lines| ==> LineFor(lines[i], participants, rounds, bets)
    ensures forall i :: 0 <= i < |board| ==> LineFor(board[i], participants, rounds, bets)
  {
    Seqs.PermutationMembers(lines, board);
    forall i | 0 <= i < |board| ensures LineFor(board[i], participants, rounds, bets) {
      assert board[i] in lines;
      var k :| 0 <= k < |lines| && lines[k] == board[i];
    }
  }

  /**
   * A leaderboard line for a participant id: the display name of a
   * participant with that id, and exactly what that id accrued.
   */
  ghost predicate LineFor(s: Score, participants: seq<User>, rounds: seq<Round>, bets: seq<Bet>) {
    var tally := RoundsTally(s.userId, rounds, bets);
    && (exists p :: p in participants && p.id == s.userId && s.displayName == DisplayName(p))
    && s.totalPoints == tally.points
    && s.exactScores == tally.exact
    && s.topScorerGoals == tally.goals
  }

  lemma StandingsAt(participants: seq<User>, rounds: seq<Round>, bets: seq<Bet>, i: nat)
    requires i < |AccumulatorKeys(participants)|
    ensures var line := Standings(participants, rounds, bets)[i];
      line.userId == AccumulatorKeys(participants)[i] && LineFor(line, participants, rounds, bets)
  {
    var key := AccumulatorKeys(participants)[i];
    var j := AccumulatorStart(participants, key);
    assert participants[j] in participants;
  }

  lemma StandingsDistinct(participants: seq<User>, rounds: seq<Round>, bets: seq<Bet>)
    ensures DistinctUsers(Standings(participants, rounds, bets))
  {
    var lines := Standings(participants, rounds, bets);
    var keys := AccumulatorKeys(participants);
    forall i | 0 <= i < |lines| ensures lines[i].userId == keys[i] {
      StandingsAt(participants, rounds, bets, i);
    }
  }

  lemma StandingsCover(participants: seq<User>, rounds: seq<Round>, bets: seq<Bet>)
    ensures var lines := Standings(participants, rounds, bets);
      forall u :: u in participants ==> exists i :: 0 <= i < |lines| && lines[i].userId == u.id
  {
    var lines := Standings(participants, rounds, bets);
    var keys := AccumulatorKeys(participants);
    forall u | u in participants ensures exists i :: 0 <= i < |lines| && lines[i].userId == u.id {
      var j :| 0 <= j < |participants| && participants[j] == u;
      assert u.id in keys;
      var k :| 0 <= k < |keys| && keys[k] == u.id;
      StandingsAt(participants, rounds, bets, k);
    }
  }

  /** An unknown tournament id yields an empty leaderboard. */
  lemma LeaderboardUnknown(users: seq<User>, tournaments: seq<Tournament>, bets: seq<Bet>, tournamentId: string)
    requires forall i :: 0 <= i < |tournaments| ==> tournaments[i].id != tournamentId
    ensures Leaderboard(users, tournaments, bets, tournamentId) == []
  {
  }

  /**
   * Two stores whose tournament (found by id) has the same resulted rounds
   * give the same leaderboard: open and locked rounds never matter.
   */
  lemma OnlyResultedRoundsMatter(users: seq<User>, ts1: seq<Tournament>, ts2: seq<Tournament>, bets: seq<Bet>, tournamentId: string)
    requires FindTournament(ts1, tournamentId).Some? && FindTournament(ts2, tournamentId).Some?
    requires ResultedRounds(FindTournament(ts1, tournamentId).value.rounds)
          == ResultedRounds(FindTournament(ts2, tournamentId).value.rounds)
    ensures Leaderboard(users, ts1, bets, tournamentId) == Leaderboard(users, ts2, bets, tournamentId)
  {
    var r1 := FindTournament(ts1, tournamentId).value.rounds;
    var r2 := FindTournament(ts2, tournamentId).value.rounds;
    var ps := Participants(users);
    var keys := AccumulatorKeys(ps);
    forall i | 0 <= i < |keys| ensures RoundsTally(keys[i], r1, bets) == RoundsTally(keys[i], r2, bets) {
      OpenRoundsDoNotCount(keys[i], r1, bets);
      OpenRoundsDoNotCount(keys[i], r2, bets);
    }
    assert Standings(ps, r1, bets) == Standings(ps, r2, bets);
  }
}
