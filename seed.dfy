/**
 * The seed data the store and the user list start from
 * (`context/DataContext.tsx`): four users, two of them admins, four
 * players, one tournament with an open round and a round whose results are
 * in, and four bets. The round deadlines are relative to the time the
 * module loads, here the parameter `now`.
 */
module Seed {
  import opened Wrappers
  import opened Types
  import Seqs
  import Scoring
  import AuthContext

  const MsPerDay := 24 * 60 * 60 * 1000

  // The ids the seed data refers to by name.
  const AliceId := "user-2"
  const BobId := "user-3"
  const G3Id := "g-3"
  const G4Id := "g-4"
  const P1 := "p-1"
  const P3 := "p-3"
  const P4 := "p-4"

  const Admin := User("user-1", "Admin", "User", "Inova Corp", "admin@inova.com", "123456789", "admin123",
                      Some("https://picsum.photos/seed/admin/200"), true)
  const Alice := User(AliceId, "Alice", "Silva", "Real Alice", "alice@email.com", "987654321", "alice123",
                      Some("https://picsum.photos/seed/alice/200"), false)
  const Bob := User(BobId, "Bob", "Souza", "Atlético Bobense", "bob@email.com", "555555555", "bob123",
                    Some("https://picsum.photos/seed/bob/200"), false)
  const Ederson := User("user-4", "Ederson", "Valadares", "Master Admin", "ederson.valadares.90@gmail.com", "111222333",
                        "ederson123", Some("https://picsum.photos/seed/ederson/200"), true)

  const Users := [Admin, Alice, Bob, Ederson]

  const Players := [Player(P1, "Artilheiro 1", "Time A"), Player("p-2", "Atacante X", "Time B"),
                    Player(P3, "Matador Z", "Time C"), Player(P4, "Goleador Y", "Time D")]

  function Logo(team: string): Option<string> {
    Some("https://picsum.photos/seed/" + team + "/40")
  }

  const G1 := Game("g-1", "Time A", "Time B", Logo("timeA"), Logo("timeB"), None, None)
  const G2 := Game("g-2", "Time C", "Time D", Logo("timeC"), Logo("timeD"), None, None)
  const G3 := Game(G3Id, "Time A", "Time C", Logo("timeA"), Logo("timeC"), Some(2), Some(1))
  const G4 := Game(G4Id, "Time B", "Time D", Logo("timeB"), Logo("timeD"), Some(0), Some(0))

  /** Round 1: three days ahead, no results; picks by Alice and Bob. */
  function Round1(now: int): Round {
    Round("r-1-1", "Rodada 1", [G1, G2], now + 3 * MsPerDay, map[AliceId := P1, BobId := "p-2"], false, map[])
  }

  /** Round 2: a day past, results in; player p-1 scored twice, p-4 is listed with no goal. */
  function Round2(now: int): Round {
    Round("r-1-2", "Rodada 2 (Encerrada)", [G3, G4], now - MsPerDay, map[AliceId := P1, BobId := P3], true,
          map[P1 := 2, P4 := 0])
  }

  function Tournaments(now: int): seq<Tournament> {
    [Tournament("t-1", "Brasileirão 2024", Some("https://picsum.photos/seed/brasileirao/400/200"), [Round1(now), Round2(now)])]
  }

  /** Alice: exact on g-3, wrong on g-4; Bob: right outcome on g-3, exact on g-4. */
  const Bets := [Bet(AliceId, G3Id, 2, 1), Bet(AliceId, G4Id, 1, 0),
                 Bet(BobId, G3Id, 1, 0), Bet(BobId, G4Id, 0, 0)]

  lemma DistinctIds()
    ensures AliceId != BobId
    ensures G3Id != G4Id
    ensures P3 != P1 && P3 != P4
  {
    assert AliceId[5] != BobId[5];
    assert G3Id[2] != G4Id[2];
    assert P3[2] != P1[2] && P3[2] != P4[2];
  }

  /** Filtering two bets of which only the first is on the game. */
  lemma OnGameFirst(b0: Bet, b1: Bet, gameId: string)
    requires b0.gameId == gameId && b1.gameId != gameId
    ensures Scoring.BetsOnGame([b0, b1], gameId) == [b0]
  {
    var on := Scoring.OnGame(gameId);
    assert [b1] == [b1] + [] && [b0, b1] == [b0] + [b1];
    Seqs.FilterCons(b1, [], on);
    Seqs.FilterCons(b0, [b1], on);
  }

  /** Filtering two bets of which only the second is on the game. */
  lemma OnGameSecond(b0: Bet, b1: Bet, gameId: string)
    requires b0.gameId != gameId && b1.gameId == gameId
    ensures Scoring.BetsOnGame([b0, b1], gameId) == [b1]
  {
    var on := Scoring.OnGame(gameId);
    assert [b1] == [b1] + [] && [b0, b1] == [b0] + [b1];
    Seqs.FilterCons(b1, [], on);
    Seqs.FilterCons(b0, [b1], on);
  }

  /** Filtering four bets of which the first and third are on the game. */
  lemma OnGameFirstThird(b0: Bet, b1: Bet, b2: Bet, b3: Bet, gameId: string)
    requires b0.gameId == gameId && b1.gameId != gameId && b2.gameId == gameId && b3.gameId != gameId
    ensures Scoring.BetsOnGame([b0, b1, b2, b3], gameId) == [b0, b2]
  {
    assert [b0, b1, b2, b3] == [b0, b1] + [b2, b3];
    Seqs.FilterConcat([b0, b1], [b2, b3], Scoring.OnGame(gameId));
    OnGameFirst(b0, b1, gameId);
    OnGameFirst(b2, b3, gameId);
  }

  /** Filtering four bets of which the second and fourth are on the game. */
  lemma OnGameSecondFourth(b0: Bet, b1: Bet, b2: Bet, b3: Bet, gameId: string)
    requires b0.gameId != gameId && b1.gameId == gameId && b2.gameId != gameId && b3.gameId == gameId
    ensures Scoring.BetsOnGame([b0, b1, b2, b3], gameId) == [b1, b3]
  {
    assert [b0, b1, b2, b3] == [b0, b1] + [b2, b3];
    Seqs.FilterConcat([b0, b1], [b2, b3], Scoring.OnGame(gameId));
    OnGameSecond(b0, b1, gameId);
    OnGameSecond(b2, b3, gameId);
  }

  /** The pool's bets on g-3: Alice's and Bob's. */
  lemma BetsOnG3()
    ensures Scoring.BetsOnGame(Bets, G3Id) == [Bets[0], Bets[2]]
  {
    DistinctIds();
    OnGameFirstThird(Bets[0], Bets[1], Bets[2], Bets[3], G3Id);
  }

  /** The pool's bets on g-4: Alice's and Bob's. */
  lemma BetsOnG4()
    ensures Scoring.BetsOnGame(Bets, G4Id) == [Bets[1], Bets[3]]
  {
    DistinctIds();
    OnGameSecondFourth(Bets[0], Bets[1], Bets[2], Bets[3], G4Id);
  }

  lemma ZeroPlus(t: Scoring.Tally)
    ensures Scoring.Zero().Plus(t) == t
  {
  }

  lemma TwoBets(u: string, game: Game, a: Bet, b: Bet)
    ensures Scoring.BetsTally(u, game, [a, b]) == Scoring.BetCredit(u, game, a).Plus(Scoring.BetCredit(u, game, b))
  {
    var s := [a, b];
    assert s[..1] == [a] && [a][..0] == [];
    assert Scoring.BetsTally(u, game, [a]) == Scoring.Zero().Plus(Scoring.BetCredit(u, game, a));
    ZeroPlus(Scoring.BetCredit(u, game, a));
  }

  lemma TwoGames(u: string, g1: Game, g2: Game, bets: seq<Bet>)
    ensures Scoring.GamesTally(u, [g1, g2], bets) == Scoring.GameTally(u, g1, bets).Plus(Scoring.GameTally(u, g2, bets))
  {
    var s := [g1, g2];
    assert s[..1] == [g1] && [g1][..0] == [];
    assert Scoring.GamesTally(u, [g1], bets) == Scoring.Zero().Plus(Scoring.GameTally(u, g1, bets));
    ZeroPlus(Scoring.GameTally(u, g1, bets));
  }

  lemma TwoRounds(u: string, r1: Round, r2: Round, bets: seq<Bet>)
    ensures Scoring.RoundsTally(u, [r1, r2], bets) == Scoring.RoundTally(u, r1, bets).Plus(Scoring.RoundTally(u, r2, bets))
  {
    assert [r1] == [] + [r1] && [r1, r2] == [r1] + [r2];
    Scoring.RoundsTallySnoc(u, [], r1, bets);
    Scoring.RoundsTallySnoc(u, [r1], r2, bets);
    ZeroPlus(Scoring.RoundTally(u, r1, bets));
  }

  /** What a user earns on the seed tournament, game by game and from the pick. */
  lemma SeedRounds(u: string, now: int)
    ensures Scoring.RoundsTally(u, Tournaments(now)[0].rounds, Bets)
         == Scoring.BetCredit(u, G3, Bets[0]).Plus(Scoring.BetCredit(u, G3, Bets[2]))
              .Plus(Scoring.BetCredit(u, G4, Bets[1]).Plus(Scoring.BetCredit(u, G4, Bets[3])))
              .Plus(Scoring.PickTally(u, Round2(now)))
  {
    TwoRounds(u, Round1(now), Round2(now), Bets);
    ZeroPlus(Scoring.RoundTally(u, Round2(now), Bets));
    TwoGames(u, G3, G4, Bets);
    BetsOnG3();
    BetsOnG4();
    TwoBets(u, G3, Bets[0], Bets[2]);
    TwoBets(u, G4, Bets[1], Bets[3]);
  }

  lemma AliceCredits(now: int)
    ensures Scoring.BetCredit(AliceId, G3, Bets[0]) == Scoring.Tally(3, 1, 0)
    ensures Scoring.BetCredit(AliceId, G3, Bets[2]) == Scoring.Zero()
    ensures Scoring.BetCredit(AliceId, G4, Bets[1]) == Scoring.Zero()
    ensures Scoring.BetCredit(AliceId, G4, Bets[3]) == Scoring.Zero()
    ensures Scoring.PickTally(AliceId, Round2(now)) == Scoring.Tally(6, 0, 2)
  {
    DistinctIds();
  }

  lemma BobCredits(now: int)
    ensures Scoring.BetCredit(BobId, G3, Bets[0]) == Scoring.Zero()
    ensures Scoring.BetCredit(BobId, G3, Bets[2]) == Scoring.Tally(1, 0, 0)
    ensures Scoring.BetCredit(BobId, G4, Bets[1]) == Scoring.Zero()
    ensures Scoring.BetCredit(BobId, G4, Bets[3]) == Scoring.Tally(3, 1, 0)
    ensures Scoring.PickTally(BobId, Round2(now)) == Scoring.Zero()
  {
    DistinctIds();
  }

  /** Alice: 3 for the exact g-3, 0 for g-4, 2 goals of her pick at 3 points each. */
  lemma AliceTally(now: int)
    ensures Scoring.RoundsTally(AliceId, Tournaments(now)[0].rounds, Bets) == Scoring.Tally(9, 1, 2)
  {
    SeedRounds(AliceId, now);
    AliceCredits(now);
  }

  /** Bob: 1 for the outcome of g-3, 3 for the exact g-4, nothing for a pick that did not score. */
  lemma BobTally(now: int)
    ensures Scoring.RoundsTally(BobId, Tournaments(now)[0].rounds, Bets) == Scoring.Tally(4, 1, 0)
  {
    SeedRounds(BobId, now);
    BobCredits(now);
  }

  /** The non-admin users, in list order. */
  lemma SeedParticipants()
    ensures Scoring.Participants(Users) == [Alice, Bob]
  {
    var p := Scoring.IsParticipant;
    assert Users == [Admin] + [Alice, Bob, Ederson];
    assert [Alice, Bob, Ederson] == [Alice] + [Bob, Ederson] && [Bob, Ederson] == [Bob] + [Ederson];
    assert [Ederson] == [Ederson] + [];
    Seqs.FilterCons(Ederson, [], p);
    Seqs.FilterCons(Bob, [Ederson], p);
    assert Seqs.Filter([Bob, Ederson], p) == [Bob];
    Seqs.FilterCons(Alice, [Bob, Ederson], p);
    assert Seqs.Filter([Alice, Bob, Ederson], p) == [Alice, Bob];
    Seqs.FilterCons(Admin, [Alice, Bob, Ederson], p);
  }

  /** Their accumulators: one per user, in list order. */
  lemma SeedAccumulators()
    ensures Scoring.AccumulatorKeys([Alice, Bob]) == [AliceId, BobId]
    ensures Scoring.Accumulators([Alice, Bob]) == map[AliceId := Scoring.InitialScore(Alice), BobId := Scoring.InitialScore(Bob)]
  {
    var users := [Alice, Bob];
    assert users[..1] == [Alice] && [Alice][..0] == [];
    assert Scoring.AccumulatorKeys([Alice]) == [AliceId];
    assert Scoring.Accumulators([Alice]) == map[AliceId := Scoring.InitialScore(Alice)];
    DistinctIds();
    assert Scoring.AccumulatorKeys(users) == [AliceId] + [BobId];
  }

  /** The names the leaderboard shows: team name, then first name in brackets. */
  lemma SeedNames()
    ensures Scoring.DisplayName(Alice) == "Real Alice (Alice)"
    ensures Scoring.DisplayName(Bob) == "Atlético Bobense (Bob)"
  {
  }

  /** The two leaderboard lines the seed data earns. */
  const AliceLine := Score(AliceId, "Real Alice (Alice)", Alice.avatarUrl, 9, 1, 2)
  const BobLine := Score(BobId, "Atlético Bobense (Bob)", Bob.avatarUrl, 4, 1, 0)

  /** Before sorting: Alice's line, then Bob's, each credited with the user's tally. */
  lemma SeedStandings(now: int)
    ensures var lines := Scoring.Standings([Alice, Bob], Tournaments(now)[0].rounds, Bets);
      |lines| == 2 && lines[0] == AliceLine && lines[1] == BobLine
  {
    SeedAccumulators();
    SeedNames();
    AliceTally(now);
    BobTally(now);
    CreditFromZero(Alice, Scoring.Tally(9, 1, 2));
    CreditFromZero(Bob, Scoring.Tally(4, 1, 0));
    var lines := Scoring.Standings([Alice, Bob], Tournaments(now)[0].rounds, Bets);
    var keys := Scoring.AccumulatorKeys([Alice, Bob]);
    var acc := Scoring.Accumulators([Alice, Bob]);
    assert keys[0] == AliceId && acc[AliceId] == Scoring.InitialScore(Alice);
    assert lines[0] == Scoring.Credit(Scoring.InitialScore(Alice), Scoring.Tally(9, 1, 2));
    assert keys[1] == BobId && acc[BobId] == Scoring.InitialScore(Bob);
    assert lines[1] == Scoring.Credit(Scoring.InitialScore(Bob), Scoring.Tally(4, 1, 0));
  }

  lemma CreditFromZero(user: User, t: Scoring.Tally)
    ensures Scoring.Credit(Scoring.InitialScore(user), t)
         == Score(user.id, Scoring.DisplayName(user), user.avatarUrl, t.points, t.exact, t.goals)
  {
  }

  /** Two lines already in rank order stay in that order. */
  lemma RankSortTwo(s: seq<Score>)
    requires |s| == 2 && Scoring.Outranks(s[0], s[1])
    ensures Scoring.RankSort(s) == s
  {
    assert s[..1][..0] == [];
    assert Scoring.RankSort(s[..1]) == [s[0]];
    assert Scoring.Insert(s[1], [s[0]]) == [s[0]] + [s[1]];
  }

  /** The seed leaderboard: Alice first with 9 points, then Bob with 4; the admins have no line. */
  lemma SeedLeaderboard(now: int)
    ensures var board := Scoring.Leaderboard(Users, Tournaments(now), Bets, "t-1");
      |board| == 2 && board[0] == AliceLine && board[1] == BobLine
  {
    var ts := Tournaments(now);
    assert Scoring.FindTournament(ts, "t-1") == Some(ts[0]);
    SeedParticipants();
    SeedStandings(now);
    var lines := Scoring.Standings([Alice, Bob], ts[0].rounds, Bets);
    RankSortTwo(lines);
  }

  /** The seed users have distinct emails, and Alice logs in with her own credentials. */
  lemma SeedLogin()
    ensures AuthContext.EmailsUnique(Users)
    ensures AuthContext.FindByCredentials(Users, "alice@email.com", "alice123") == Some(Alice)
  {
    assert Users[0].email[1] != Users[1].email[1];
    assert Users[0].email[0] != Users[2].email[0] && Users[0].email[0] != Users[3].email[0];
    assert Users[1].email[0] != Users[2].email[0] && Users[1].email[0] != Users[3].email[0];
    assert Users[2].email[0] != Users[3].email[0];
  }
}
