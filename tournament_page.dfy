/**
 * The betting form of one round (`RoundComponent` in
 * `pages/TournamentPage.tsx`): the lock taken from the deadline, the
 * toggles, the prefill of the form from the user's stored bets, the score
 * inputs, and the save that turns the form into the bets `submitBets` stores.
 */
module TournamentPage {
  import opened Wrappers
  import opened Types
  import Text
  import Scoring
  import ScoreForms
  import DataContext
  import CountdownTimer

  // ------------------------------------------------------------- prefill

  /** `{ scoreA: String(b.scoreA), scoreB: String(b.scoreB) }` */
  function PrefilledEdit(b: Bet): (e: ScoreForms.ScoreEdit)
    ensures ScoreForms.Filled(e)
  {
    ScoreForms.ScoreEdit(Some(Text.NatToString(b.scoreA)), Some(Text.NatToString(b.scoreB)))
  }

  /** The form the stored bets fill in: one entry per game bet on, both sides filled. */
  function Prefill(userBets: seq<Bet>): (r: map<string, ScoreForms.ScoreEdit>)
    ensures forall id :: id in r <==> exists b :: b in userBets && b.gameId == id
    ensures forall id :: id in r ==> ScoreForms.Filled(r[id])
  {
    if userBets == [] then map[]
    else
      var last := userBets[|userBets| - 1];
      var init := userBets[..|userBets| - 1];
      assert forall b :: b in userBets <==> b in init || b == last;
      Prefill(init)[last.gameId := PrefilledEdit(last)]
  }

  /** The entry of a game holds the scores of the last of the user's bets on it. */
  lemma {:induction false} PrefillLast(userBets: seq<Bet>, i: nat)
    requires i < |userBets|
    requires forall j :: i < j < |userBets| ==> userBets[j].gameId != userBets[i].gameId
    ensures Prefill(userBets)[userBets[i].gameId] == PrefilledEdit(userBets[i])
  {
    if i < |userBets| - 1 {
      PrefillLast(userBets[..|userBets| - 1], i);
    }
  }

  /** The prefill effect's `userBets.forEach(b => { initialBets[b.gameId] = … })`. */
  method InitialBets(userBets: seq<Bet>) returns (initialBets: map<string, ScoreForms.ScoreEdit>)
    ensures initialBets == Prefill(userBets)
  {
    initialBets := map[];
    var i := 0;
    while i < |userBets|
      invariant i <= |userBets|
      invariant initialBets == Prefill(userBets[..i])
    {
      var b := userBets[i];
      assert userBets[..i + 1][..i] == userBets[..i];
      initialBets := initialBets[b.gameId := PrefilledEdit(b)];
      i := i + 1;
    }
    assert userBets[..i] == userBets;
  }

  // ---------------------------------------------------------------- saving

  /**
   * The bets the form submits (`round.games.map(…).filter(b => b !== null)`):
   * for each game of the round, in order, a bet by the user when both of its
   * inputs hold a number.
   */
  function FinalBets(games: seq<Game>, edits: map<string, ScoreForms.ScoreEdit>, userId: string): seq<Bet> {
    if games == [] then []
    else
      var game := games[0];
      var rest := FinalBets(games[1..], edits, userId);
      if game.id in edits && ScoreForms.Filled(edits[game.id]) then
        var edit := edits[game.id];
        [Bet(userId, game.id, Text.ParseDigits(edit.scoreA.value), Text.ParseDigits(edit.scoreB.value))] + rest
      else rest
  }

  /**
   * Every submitted bet is the user's, on a game of the round whose two
   * inputs hold numbers, with those numbers; form entries for any other id
   * are never submitted.
   */
  lemma {:induction false} FinalBetsSound(games: seq<Game>, edits: map<string, ScoreForms.ScoreEdit>, userId: string)
    ensures var r := FinalBets(games, edits, userId);
      && |r| <= |games|
      && forall b :: b in r ==>
           && b.userId == userId
           && (exists g :: g in games && g.id == b.gameId)
           && b.gameId in edits && ScoreForms.Filled(edits[b.gameId])
           && b.scoreA == Text.ParseDigits(edits[b.gameId].scoreA.value)
           && b.scoreB == Text.ParseDigits(edits[b.gameId].scoreB.value)
  {
    if games != [] {
      FinalBetsSound(games[1..], edits, userId);
      assert forall g :: g in games[1..] ==> g in games;
      assert games[0] in games;
    }
  }

  /** A game of the round gets a bet exactly when both of its inputs hold a number. */
  lemma {:induction false} FinalBetsComplete(games: seq<Game>, edits: map<string, ScoreForms.ScoreEdit>, userId: string, g: Game)
    requires g in games
    ensures (exists b :: b in FinalBets(games, edits, userId) && b.gameId == g.id)
        <==> g.id in edits && ScoreForms.Filled(edits[g.id])
  {
    var game := games[0];
    var rest := FinalBets(games[1..], edits, userId);
    if g != game {
      FinalBetsComplete(games[1..], edits, userId, g);
    }
    FinalBetsSound(games[1..], edits, userId);
    if game.id in edits && ScoreForms.Filled(edits[game.id]) {
      var edit := edits[game.id];
      var b := Bet(userId, game.id, Text.ParseDigits(edit.scoreA.value), Text.ParseDigits(edit.scoreB.value));
      assert FinalBets(games, edits, userId) == [b] + rest;
      assert b in FinalBets(games, edits, userId);
    } else {
      assert FinalBets(games, edits, userId) == rest;
    }
  }

  predicate DistinctIds(games: seq<Game>) {
    forall i, j :: 0 <= i < j < |games| ==> games[i].id != games[j].id
  }

  /** The positions in `games` of the games that get a bet, in order. */
  function BetPositions(games: seq<Game>, edits: map<string, ScoreForms.ScoreEdit>): seq<nat> {
    if games == [] then []
    else
      var rest := BetPositions(games[1..], edits);
      var shifted := seq(|rest|, k requires 0 <= k < |rest| => rest[k] + 1);
      if games[0].id in edits && ScoreForms.Filled(edits[games[0].id]) then [0] + shifted else shifted
  }

  /**
   * The bets follow the round's game order: the k-th bet is on the game at
   * the k-th of a strictly increasing run of positions of the round.
   */
  lemma {:induction false} FinalBetsInOrder(games: seq<Game>, edits: map<string, ScoreForms.ScoreEdit>, userId: string)
    ensures var r, pos := FinalBets(games, edits, userId), BetPositions(games, edits);
      && |pos| == |r|
      && (forall k :: 0 <= k < |r| ==> pos[k] < |games| && games[pos[k]].id == r[k].gameId)
      && (forall i, j :: 0 <= i < j < |pos| ==> pos[i] < pos[j])
  {
    if games != [] {
      var tail := games[1..];
      var rest, restPos := FinalBets(tail, edits, userId), BetPositions(tail, edits);
      FinalBetsInOrder(tail, edits, userId);
      var shifted := seq(|restPos|, k requires 0 <= k < |restPos| => restPos[k] + 1);
      ShiftPositions(games, rest, restPos, shifted);
      if games[0].id in edits && ScoreForms.Filled(edits[games[0].id]) {
        ShiftedInOrder(games, FinalBets(games, edits, userId), rest, BetPositions(games, edits), shifted);
      }
    }
  }

  /** Positions in the tail of the games, moved up by one, are positions in the games. */
  lemma ShiftPositions(games: seq<Game>, rest: seq<Bet>, restPos: seq<nat>, shifted: seq<nat>)
    requires games != [] && |restPos| == |rest| && |shifted| == |restPos|
    requires forall k :: 0 <= k < |shifted| ==> shifted[k] == restPos[k] + 1
    requires forall k :: 0 <= k < |rest| ==> restPos[k] < |games[1..]| && games[1..][restPos[k]].id == rest[k].gameId
    requires forall i, j :: 0 <= i < j < |restPos| ==> restPos[i] < restPos[j]
    ensures forall k :: 0 <= k < |rest| ==> shifted[k] < |games| && games[shifted[k]].id == rest[k].gameId
    ensures forall i, j :: 0 <= i < j < |shifted| ==> 0 < shifted[i] < shifted[j]
    ensures forall k :: 0 <= k < |shifted| ==> 0 < shifted[k]
  {
  }

  /** Putting game 0 and its bet in front of an ordered tail keeps the order. */
  lemma ShiftedInOrder(games: seq<Game>, r: seq<Bet>, rest: seq<Bet>, pos: seq<nat>, shifted: seq<nat>)
    requires games != [] && r != [] && r[1..] == rest && r[0].gameId == games[0].id
    requires pos == [0] + shifted && |shifted| == |rest|
    requires forall k :: 0 <= k < |rest| ==> shifted[k] < |games| && games[shifted[k]].id == rest[k].gameId
    requires forall i, j :: 0 <= i < j < |shifted| ==> 0 < shifted[i] < shifted[j]
    requires forall k :: 0 <= k < |shifted| ==> 0 < shifted[k]
    ensures forall k :: 0 <= k < |r| ==> pos[k] < |games| && games[pos[k]].id == r[k].gameId
    ensures forall i, j :: 0 <= i < j < |pos| ==> pos[i] < pos[j]
  {
    forall k | 0 < k < |r| ensures pos[k] < |games| && games[pos[k]].id == r[k].gameId {
      assert pos[k] == shifted[k - 1] && r[k] == rest[k - 1];
    }
  }

  /** When the round's game ids are distinct, no game gets two bets. */
  lemma AtMostOneBetPerGame(games: seq<Game>, edits: map<string, ScoreForms.ScoreEdit>, userId: string)
    requires DistinctIds(games)
    ensures var r := FinalBets(games, edits, userId);
      forall i, j :: 0 <= i < j < |r| ==> r[i].gameId != r[j].gameId
  {
    FinalBetsInOrder(games, edits, userId);
  }

  /**
   * Saving a form the stored bets filled in, unchanged, submits those bets
   * again: the bets on the round's games come back with their scores, and
   * nothing else is submitted.
   */
  lemma SaveUnchangedPrefill(games: seq<Game>, userBets: seq<Bet>, userId: string)
    requires forall b :: b in userBets ==> b.userId == userId
    requires forall i, j :: 0 <= i < j < |userBets| ==> userBets[i].gameId != userBets[j].gameId
    ensures var r := FinalBets(games, Prefill(userBets), userId);
      && (forall b :: b in r ==> b in userBets)
      && (forall b :: b in userBets && (exists g :: g in games && g.id == b.gameId) ==> b in r)
  {
    var edits := Prefill(userBets);
    var r := FinalBets(games, edits, userId);
    FinalBetsSound(games, edits, userId);
    forall b | b in r ensures b in userBets {
      var k :| 0 <= k < |userBets| && userBets[k].gameId == b.gameId;
      PrefillLast(userBets, k);
      Text.ParseNatToString(userBets[k].scoreA);
      Text.ParseNatToString(userBets[k].scoreB);
      assert b == userBets[k];
    }
    forall b | b in userBets && (exists g :: g in games && g.id == b.gameId) ensures b in r {
      var g :| g in games && g.id == b.gameId;
      var k :| 0 <= k < |userBets| && userBets[k] == b;
      PrefillLast(userBets, k);
      FinalBetsComplete(games, edits, userId, g);
      var b' :| b' in r && b'.gameId == g.id;
      Text.ParseNatToString(b.scoreA);
      Text.ParseNatToString(b.scoreB);
      assert b' == b;
    }
  }

  /**
   * Saving the same form twice stores the bets saving it once stores: the
   * form submits only the user's bets on the round's own games, which the
   * store replaces on resubmission.
   */
  lemma SaveTwice(bets: seq<Bet>, tournaments: seq<Tournament>, tournamentId: string, round: Round,
                  edits: map<string, ScoreForms.ScoreEdit>, userId: string)
    requires DataContext.RoundGameIds(tournaments, tournamentId, round.id) == GameIds(round.games)
    ensures var gameIds := GameIds(round.games);
      var submitted := FinalBets(round.games, edits, userId);
      DataContext.Resubmit(DataContext.Resubmit(bets, userId, gameIds, submitted), userId, gameIds, submitted)
        == DataContext.Resubmit(bets, userId, gameIds, submitted)
  {
    var gameIds := GameIds(round.games);
    var submitted := FinalBets(round.games, edits, userId);
    FinalBetsSound(round.games, edits, userId);
    forall i | 0 <= i < |submitted| ensures submitted[i].userId == userId && submitted[i].gameId in gameIds {
      assert submitted[i] in submitted;
      var g :| g in round.games && g.id == submitted[i].gameId;
      var k :| 0 <= k < |round.games| && round.games[k] == g;
      assert gameIds[k] == g.id;
    }
    DataContext.ResubmitIdempotent(bets, userId, gameIds, submitted);
  }

  /**
   * The bet as written: a game whose entry passes
   * `bet && bet.scoreA !== '' && bet.scoreB !== ''` is submitted with
   * `parseInt` of each side, `NaN` for a side never typed into.
   */
  function BetAsWritten(gameId: string, edits: map<string, ScoreForms.ScoreEdit>): Option<(Text.JsNumber, Text.JsNumber)> {
    if gameId in edits && ScoreForms.AcceptedAsWritten(edits[gameId]) then
      Some((Text.ParseInt(edits[gameId].scoreA), Text.ParseInt(edits[gameId].scoreB)))
    else None
  }

  /** On an entry without an untouched side, the submitted bet and the written one agree. */
  lemma FinalBetsAgreeWithWritten(games: seq<Game>, edits: map<string, ScoreForms.ScoreEdit>, userId: string, g: Game)
    requires g in games
    requires g.id in edits ==> edits[g.id].scoreA.Some? && edits[g.id].scoreB.Some?
    ensures BetAsWritten(g.id, edits).Some? <==> exists b :: b in FinalBets(games, edits, userId) && b.gameId == g.id
    ensures forall b :: b in FinalBets(games, edits, userId) && b.gameId == g.id ==>
      BetAsWritten(g.id, edits) == Some((Text.Num(b.scoreA), Text.Num(b.scoreB)))
  {
    FinalBetsComplete(games, edits, userId, g);
    FinalBetsSound(games, edits, userId);
  }

  /**
   * A user who types only side A of a game, say 2, submits a bet whose side
   * B is `NaN`. On a game that ends 0-0 the leaderboard reads the bet as a
   * draw and credits 1 point; the corrected save submits no bet on that game.
   */
  lemma HalfTypedBetScoresDraw(games: seq<Game>, userId: string, g: Game)
    requires g in games
    ensures var edits := map[g.id := ScoreForms.ScoreEdit(Some("2"), None)];
      && BetAsWritten(g.id, edits) == Some((Text.Num(2), Text.NaN))
      && Scoring.JsBetAward(Text.Num(2), Text.NaN, Text.Num(0), Text.Num(0)) == Scoring.Tally(1, 0, 0)
      && !exists b :: b in FinalBets(games, edits, userId) && b.gameId == g.id
  {
    var edits := map[g.id := ScoreForms.ScoreEdit(Some("2"), None)];
    ScoreForms.HalfTypedPasses();
    FinalBetsComplete(games, edits, userId, g);
  }

  // ------------------------------------------------------------- the lock

  /**
   * The lock is decided twice only: `deadline < now` when the round is
   * mounted, and `onEnd` from its timer. The timer is mounted only while the
   * round is open, and saving closes the round. A round mounted no later
   * than its deadline (at the deadline itself, or earlier) whose timer is
   * mounted only at or after the deadline starts unlocked. That timer
   * already reads as expired, so it never ticks and never calls `onEnd`: the
   * round stays unlocked.
   */
  lemma LateTimerNeverLocks(mount: int, deadline: int, openedAt: int, instants: seq<int>)
    requires mount <= deadline <= openedAt
    ensures !(deadline < mount)
    ensures CountdownTimer.CalculateTimeLeft(deadline, openedAt) == []
    ensures CountdownTimer.EndCalls(CountdownTimer.CalculateTimeLeft(deadline, openedAt), deadline, instants) == 0
  {
    CountdownTimer.NoEndAfterExpiry(deadline, instants);
  }

  // -------------------------------------------------------- the component

  /** `RoundComponent`'s state. */
  class RoundForm {
    const tournamentId: string
    var isOpen: bool
    var isBetting: bool
    var bets: map<string, ScoreForms.ScoreEdit>
    var topScorer: string
    var isLocked: bool

    /** The form is never in betting mode while the round is locked. */
    predicate Valid()
      reads this
    {
      isLocked ==> !isBetting
    }

    /** `useState(…)`: closed, not betting, empty, locked when the deadline has passed. */
    constructor (tournamentId: string, round: Round, now: int)
      ensures this.tournamentId == tournamentId
      ensures isLocked == (round.deadline < now)
      ensures !isOpen && !isBetting && bets == map[] && topScorer == ""
      ensures Valid()
    {
      this.tournamentId := tournamentId;
      isOpen := false;
      isBetting := false;
      bets := map[];
      topScorer := "";
      isLocked := round.deadline < now;
    }

    /** Whether the betting inputs render (`isBetting && !isLocked`); under the invariant, exactly while betting. */
    function FormVisible(): (r: bool)
      reads this
      ensures r ==> isBetting && !isLocked
      ensures Valid() ==> (r <==> isBetting)
    {
      isBetting && !isLocked
    }

    /**
     * The prefill effect. It runs again on every store update, because the
     * store's `getUserBetsForRound` is a new function on each render. The
     * round it reads is the one the page passes in, taken from the copy of
     * the tournament made when it was selected. With a user, the form takes
     * the user's stored bets on that round and the pick the round records.
     */
    method LoadUserBets(user: Option<User>, store: DataContext.DataStore, round: Round)
      modifies this`bets, this`topScorer
      ensures user.None? ==> bets == old(bets) && topScorer == old(topScorer)
      ensures user.Some? ==> var mine := store.GetUserBetsForRound(user.value.id, round);
        && bets == Prefill(mine.bets)
        && topScorer == (if mine.topScorer.Some? then mine.topScorer.value.id else old(topScorer))
    {
      if user.Some? {
        var mine := store.GetUserBetsForRound(user.value.id, round);
        var initialBets := InitialBets(mine.bets);
        bets := initialBets;
        if mine.topScorer.Some? {
          topScorer := mine.topScorer.value.id;
        }
      }
    }

    /** `handleScoreChange` */
    method HandleScoreChange(gameId: string, team: ScoreForms.Team, value: string)
      modifies this`bets
      ensures bets == ScoreForms.Edited(old(bets), gameId, team, value)
    {
      var before := if gameId in bets then bets[gameId] else ScoreForms.ScoreEdit(None, None);
      var score := Text.DigitsOnly(value);
      var after := if team == ScoreForms.TeamA then before.(scoreA := Some(score)) else before.(scoreB := Some(score));
      bets := bets[gameId := after];
    }

    /**
     * `handleSaveBets`: nothing without a user or a chosen top scorer;
     * otherwise submits `FinalBets` with the pick, and closes the form.
     * Returns the bets submitted.
     */
    method HandleSaveBets(user: Option<User>, store: DataContext.DataStore, round: Round, now: nat) returns (submitted: Option<seq<Bet>>)
      requires store.Valid()
      modifies this`isBetting, this`isOpen, store`bets, store`tournaments, store`achievements
      ensures store.Valid()
      ensures submitted.None? <==> user.None? || topScorer == ""
      ensures submitted.None? ==> && store.bets == old(store.bets) && store.tournaments == old(store.tournaments)
                                  && store.achievements == old(store.achievements)
                                  && isBetting == old(isBetting) && isOpen == old(isOpen)
      ensures submitted.Some? ==> var userId := user.value.id;
        && submitted.value == FinalBets(round.games, bets, userId)
        && store.bets == DataContext.Resubmit(old(store.bets), userId,
                           DataContext.RoundGameIds(old(store.tournaments), tournamentId, round.id), submitted.value)
        && store.tournaments == DataContext.EditTournaments(old(store.tournaments), tournamentId, round.id,
                                  DataContext.SetPick(userId, topScorer))
        && store.achievements == DataContext.GrantFirstBet(old(store.achievements), userId, now)
        && !isBetting && !isOpen
    {
      if user.None? || topScorer == "" {
        return None;
      }
      var finalBets := FinalBets(round.games, bets, user.value.id);
      store.SubmitBets(tournamentId, round.id, finalBets, topScorer, user.value.id, now);
      isBetting := false;
      isOpen := false;
      submitted := Some(finalBets);
    }

    /** `handleTimerEnd` */
    method HandleTimerEnd()
      modifies this`isLocked, this`isBetting
      ensures isLocked && !isBetting && Valid()
    {
      isLocked := true;
      isBetting := false;
    }

    /** `toggleBetting`: nothing while locked; otherwise flips betting mode and opens the round. */
    method ToggleBetting()
      requires Valid()
      modifies this`isBetting, this`isOpen
      ensures Valid()
      ensures isLocked ==> isBetting == old(isBetting) && isOpen == old(isOpen)
      ensures !isLocked ==> isBetting == !old(isBetting) && isOpen
    {
      if isLocked {
        return;
      }
      isBetting := !isBetting;
      isOpen := true;
    }

    /** The round header: opens or closes the round. */
    method ToggleOpen()
      modifies this`isOpen
      ensures isOpen == !old(isOpen)
    {
      isOpen := !isOpen;
    }
  }

  /**
   * Bets after the deadline: a round mounted before its deadline and opened
   * only after it goes into betting mode, its timer calls no `onEnd`, and
   * the save submits the typed bets as on any open round.
   */
  method LateBet(store: DataContext.DataStore, tournamentId: string, round: Round, user: User, pick: string,
                 game: Game, scoreA: nat, scoreB: nat, mount: int, later: nat)
    returns (ended: bool, visible: bool, submitted: Option<seq<Bet>>)
    requires store.Valid()
    requires mount <= round.deadline < later && pick != ""
    requires game in round.games
    modifies store`bets, store`tournaments, store`achievements
    ensures !ended && visible
    ensures submitted.Some? && Bet(user.id, game.id, scoreA, scoreB) in submitted.value
    ensures store.bets == DataContext.Resubmit(old(store.bets), user.id,
                            DataContext.RoundGameIds(old(store.tournaments), tournamentId, round.id), submitted.value)
  {
    var form := new RoundForm(tournamentId, round, mount);
    form.ToggleBetting();
    var timer := new CountdownTimer.Countdown(round.deadline, later);
    var ticked;
    ticked, ended := timer.Tick(later);
    visible := form.FormVisible();
    var typedA, typedB := Text.NatToString(scoreA), Text.NatToString(scoreB);
    form.HandleScoreChange(game.id, ScoreForms.TeamA, typedA);
    form.HandleScoreChange(game.id, ScoreForms.TeamB, typedB);
    assert form.bets[game.id] == ScoreForms.ScoreEdit(Some(typedA), Some(typedB));
    form.topScorer := pick;
    submitted := form.HandleSaveBets(Some(user), store, round, later);
    FinalBetsComplete(round.games, form.bets, user.id, game);
    FinalBetsSound(round.games, form.bets, user.id);
    Text.ParseNatToString(scoreA);
    Text.ParseNatToString(scoreB);
  }

  /**
   * The page passes each form a round of the tournament copied when it was
   * selected, which no save refreshes. After a save that changes the pick
   * from `oldPick` to `pick`, the prefill effect re-runs on the store update,
   * reads the copy and puts the old pick back into the form; the store holds
   * the new pick until the next save submits the old one again.
   */
  method StalePickAfterSave(store: DataContext.DataStore, tournamentId: string, round: Round, user: User,
                            oldPick: Player, pick: string, now: nat)
    returns (reloaded: string, again: Option<seq<Bet>>)
    requires store.Valid()
    requires oldPick in store.players && oldPick.id != "" && pick != "" && pick != oldPick.id
    requires user.id in round.topScorerBets && round.topScorerBets[user.id] == oldPick.id
    modifies store`bets, store`tournaments, store`achievements
    ensures reloaded == oldPick.id != pick
    ensures again.Some?
    ensures store.tournaments == DataContext.EditTournaments(
              DataContext.EditTournaments(old(store.tournaments), tournamentId, round.id, DataContext.SetPick(user.id, pick)),
              tournamentId, round.id, DataContext.SetPick(user.id, oldPick.id))
  {
    var form := new RoundForm(tournamentId, round, now);
    form.topScorer := pick;
    var first := form.HandleSaveBets(Some(user), store, round, now);
    form.LoadUserBets(Some(user), store, round);
    reloaded := form.topScorer;
    again := form.HandleSaveBets(Some(user), store, round, now);
  }
}
