/**
 * The admin panel (`pages/AdminPage.tsx`): the admin-only guard, the
 * guards that decide whether a tournament, round or game is added and with
 * which names, and the result form of a round, which turns the typed scores
 * into the games' final scores and the typed goals into the scorer map.
 *
 * Each component's state is a class whose fields are its `useState`
 * variables; the text inputs assign those fields directly. A handler that
 * calls into the store takes the store as a parameter.
 */
module AdminPage {
  import opened Wrappers
  import opened Types
  import Text
  import Scoring
  import ScoreForms
  import DataContext

  // ------------------------------------------------------------- the guard

  /** What the page shows: the refusal, or the panel with all its actions. */
  datatype AdminView = AccessDenied(message: string) | Panel

  /** `if (!user?.isAdmin) return <div>…</div>`: without a user, or for a user who is not an admin, only the refusal. */
  function View(user: Option<User>): (v: AdminView)
    ensures v.Panel? <==> user.Some? && user.value.isAdmin
    ensures v.AccessDenied? ==> v.message == "Acesso negado. Apenas administradores."
  {
    match user
    case Some(u) => if u.isAdmin then Panel else AccessDenied("Acesso negado. Apenas administradores.")
    case None => AccessDenied("Acesso negado. Apenas administradores.")
  }

  // ------------------------------------------------------ adding things

  /**
   * The argument of `addTournament` when the input holds a name: the
   * trimmed input, which neither starts nor ends with whitespace; `None`
   * when the input is blank.
   */
  function TournamentName(input: string): (r: Option<string>)
    ensures r.Some? <==> Text.NonBlank(input)
    ensures r.Some? ==> && r.value == Text.Trim(input) && |r.value| <= |input|
                        && !Text.IsWhitespace(r.value[0]) && !Text.IsWhitespace(r.value[|r.value| - 1])
  {
    Text.TrimEnds(input);
    if Text.NonBlank(input) then Some(Text.Trim(input)) else None
  }

  /** `newRoundName.trim() && newRoundDeadline`: a name that is not blank and a deadline chosen. */
  predicate RoundAccepted(name: string, deadlineInput: string) {
    Text.NonBlank(name) && deadlineInput != ""
  }

  /** `https://picsum.photos/seed/${…}/40` for a team name. */
  function LogoUrl(team: string): string {
    "https://picsum.photos/seed/" + team + "/40"
  }

  /**
   * The game `handleAddGame` passes: both team names trimmed, a logo for
   * each, and no final score; `None` when either name is blank.
   */
  function GameRequest(teamA: string, teamB: string): (r: Option<DataContext.GameData>)
    ensures r.Some? <==> Text.NonBlank(teamA) && Text.NonBlank(teamB)
    ensures r.Some? ==> && r.value.teamA == Text.Trim(teamA) && r.value.teamB == Text.Trim(teamB)
                        && r.value.teamA != "" && r.value.teamB != ""
                        && r.value.teamALogo == Some(LogoUrl(r.value.teamA))
                        && r.value.teamBLogo == Some(LogoUrl(r.value.teamB))
                        && r.value.finalScoreA.None? && r.value.finalScoreB.None?
  {
    if Text.NonBlank(teamA) && Text.NonBlank(teamB) then
      var a, b := Text.Trim(teamA), Text.Trim(teamB);
      Some(DataContext.GameData(a, b, Some(LogoUrl(a)), Some(LogoUrl(b)), None, None))
    else None
  }

  /** A game added from the panel has no result, so it changes no leaderboard. */
  lemma AddedGameKeepsBoards(users: seq<User>, tournaments: seq<Tournament>, bets: seq<Bet>,
                             tournamentId: string, roundId: string, teamA: string, teamB: string, now: nat, anyId: string)
    requires GameRequest(teamA, teamB).Some?
    ensures var game := DataContext.NewGame(GameRequest(teamA, teamB).value, now);
      var after := DataContext.EditTournaments(tournaments, tournamentId, roundId, DataContext.AppendGame(game));
      Scoring.Leaderboard(users, after, bets, anyId) == Scoring.Leaderboard(users, tournaments, bets, anyId)
  {
    DataContext.AddGameKeepsBoards(users, tournaments, bets, tournamentId, roundId, GameRequest(teamA, teamB).value, now, anyId);
  }

  // ------------------------------------------------------ saving results

  /**
   * The score one side of a game shows and saves: the typed digits, nothing
   * when the field was emptied, and the stored final score when the side was
   * never typed into (`editingResults[id]?.scoreA ?? game.finalScoreA ?? ''`).
   */
  function Shown(field: Option<Text.Digits>, stored: Option<nat>): (r: Option<nat>)
    ensures field.Some? ==> r == (if field.value == "" then None else Some(Text.ParseDigits(field.value)))
    ensures field.None? ==> r == stored
  {
    match field
    case None => stored
    case Some(d) => if d == "" then None else Some(Text.ParseDigits(d))
  }

  /**
   * One game after saving: it takes the two scores its inputs show when both
   * show a number, and is returned unchanged otherwise.
   */
  function SavedGame(game: Game, edits: map<string, ScoreForms.ScoreEdit>): Game {
    if game.id in edits then
      var a := Shown(edits[game.id].scoreA, game.finalScoreA);
      var b := Shown(edits[game.id].scoreB, game.finalScoreB);
      if a.Some? && b.Some? then game.(finalScoreA := a, finalScoreB := b) else game
    else game
  }

  /** `round.games.map(game => …)`: each game after saving, in the round's order. */
  function UpdatedGames(games: seq<Game>, edits: map<string, ScoreForms.ScoreEdit>): seq<Game> {
    seq(|games|, i requires 0 <= i < |games| => SavedGame(games[i], edits))
  }

  /**
   * What saving does to one game: a game nobody typed a score for, or one
   * with an emptied side, keeps its final scores; one with both sides typed
   * takes the two numbers typed; a game that changes gets both scores, and
   * nothing but the final scores ever changes.
   */
  lemma SavedGameRule(game: Game, edits: map<string, ScoreForms.ScoreEdit>)
    ensures var saved := SavedGame(game, edits);
      && saved == game.(finalScoreA := saved.finalScoreA, finalScoreB := saved.finalScoreB)
      && (game.id !in edits ==> saved == game)
      && (game.id in edits && !ScoreForms.AcceptedAsWritten(edits[game.id]) ==> saved == game)
      && (game.id in edits && ScoreForms.Filled(edits[game.id]) ==>
            && saved.finalScoreA == Some(Text.ParseDigits(edits[game.id].scoreA.value))
            && saved.finalScoreB == Some(Text.ParseDigits(edits[game.id].scoreB.value)))
      && (saved != game ==> saved.finalScoreA.Some? && saved.finalScoreB.Some?)
  {
  }

  /** The saved list has the round's games, in order, with their ids, teams and logos. */
  lemma UpdatedGamesShape(games: seq<Game>, edits: map<string, ScoreForms.ScoreEdit>)
    ensures var r := UpdatedGames(games, edits);
      && |r| == |games|
      && forall i :: 0 <= i < |games| ==>
           r[i] == games[i].(finalScoreA := r[i].finalScoreA, finalScoreB := r[i].finalScoreB)
  {
    var r := UpdatedGames(games, edits);
    forall i | 0 <= i < |games|
      ensures r[i] == games[i].(finalScoreA := r[i].finalScoreA, finalScoreB := r[i].finalScoreB)
    {
      SavedGameRule(games[i], edits);
    }
  }

  /** Saving the same form twice gives the games saving it once gives. */
  lemma SaveIdempotent(games: seq<Game>, edits: map<string, ScoreForms.ScoreEdit>)
    ensures UpdatedGames(UpdatedGames(games, edits), edits) == UpdatedGames(games, edits)
  {
    var once := UpdatedGames(games, edits);
    forall i | 0 <= i < |games|
      ensures SavedGame(once[i], edits) == once[i]
    {
      SavedGameRule(games[i], edits);
    }
  }

  /**
   * The final scores as the source writes them: on a game whose edit passes
   * `result.scoreA !== '' && result.scoreB !== ''`, `parseInt` of each typed
   * side, which is `NaN` for a side never typed into.
   */
  function FinalsAsWritten(game: Game, edits: map<string, ScoreForms.ScoreEdit>): (Option<Text.JsNumber>, Option<Text.JsNumber>) {
    if game.id in edits && ScoreForms.AcceptedAsWritten(edits[game.id]) then
      (Some(Text.ParseInt(edits[game.id].scoreA)), Some(Text.ParseInt(edits[game.id].scoreB)))
    else (AsJs(game.finalScoreA), AsJs(game.finalScoreB))
  }

  function AsJs(score: Option<nat>): Option<Text.JsNumber> {
    match score
    case None => None
    case Some(n) => Some(Text.Num(n))
  }

  /**
   * The saved game agrees with the source on every game whose edit has no
   * untouched side: the two differ only where the source stores `NaN`.
   */
  lemma SavedAgreesWithWritten(game: Game, edits: map<string, ScoreForms.ScoreEdit>)
    requires game.id in edits ==> edits[game.id].scoreA.Some? && edits[game.id].scoreB.Some?
    ensures var saved := SavedGame(game, edits);
      FinalsAsWritten(game, edits) == (AsJs(saved.finalScoreA), AsJs(saved.finalScoreB))
  {
  }

  /**
   * An admin who types only side A of an unscored game, say 2, saves a game
   * whose side B is `NaN`. The leaderboard checks only `!== undefined`, and
   * every comparison with `NaN` is false, so a 1-1 bet on that game earns
   * the 1 point of a correct draw; the corrected save leaves the game unscored.
   */
  lemma HalfTypedResultScoresDraw(game: Game)
    requires game.finalScoreA.None? && game.finalScoreB.None?
    ensures var edits := map[game.id := ScoreForms.ScoreEdit(Some("2"), None)];
      && FinalsAsWritten(game, edits) == (Some(Text.Num(2)), Some(Text.NaN))
      && Scoring.JsBetAward(Text.Num(1), Text.Num(1), Text.Num(2), Text.NaN) == Scoring.Tally(1, 0, 0)
      && SavedGame(game, edits) == game
  {
    ScoreForms.HalfTypedPasses();
  }

  /**
   * `finalScorers`: the scorer inputs that hold a number above 0, with that
   * number. An emptied or zero input, and any scorer stored on the round but
   * not typed this session, is left out.
   */
  method FinalScorers(scorers: map<string, Text.Digits>) returns (finalScorers: map<string, nat>)
    ensures forall id :: id in finalScorers <==> id in scorers && scorers[id] != "" && Text.ParseDigits(scorers[id]) > 0
    ensures forall id :: id in finalScorers ==> finalScorers[id] == Text.ParseDigits(scorers[id])
  {
    finalScorers := map[];
    var pending := scorers.Keys;
    while pending != {}
      invariant pending <= scorers.Keys
      invariant forall id :: id in finalScorers <==>
        id in scorers && id !in pending && scorers[id] != "" && Text.ParseDigits(scorers[id]) > 0
      invariant forall id :: id in finalScorers ==> finalScorers[id] == Text.ParseDigits(scorers[id])
      decreases |pending|
    {
      var playerId :| playerId in pending;
      var goals := scorers[playerId];
      if goals != "" && Text.ParseDigits(goals) > 0 {
        finalScorers := finalScorers[playerId := Text.ParseDigits(goals)];
      }
      pending := pending - {playerId};
    }
  }

  // ------------------------------------------------------- the components

  /** `AdminPage`'s own state: the new tournament's name. */
  class TournamentsPanel {
    var newTournamentName: string

    constructor ()
      ensures newTournamentName == ""
    {
      newTournamentName := "";
    }

    /** `handleAddTournament`: adds a tournament named by the trimmed input, without an image, and clears the input. */
    method HandleAddTournament(store: DataContext.DataStore, now: nat)
      modifies this, store`tournaments
      ensures var name := TournamentName(old(newTournamentName));
        && store.tournaments == (if name.Some? then old(store.tournaments) + [DataContext.NewTournament(name.value, None, now)]
                                 else old(store.tournaments))
        && newTournamentName == (if name.Some? then "" else old(newTournamentName))
    {
      if Text.Trim(newTournamentName) != "" {
        store.AddTournament(Text.Trim(newTournamentName), None, now);
        newTournamentName := "";
      }
    }
  }

  /** `TournamentEditor`'s state: the new round's name and deadline inputs. */
  class TournamentEditor {
    const tournamentId: string
    var newRoundName: string
    var newRoundDeadline: string

    constructor (tournamentId: string)
      ensures this.tournamentId == tournamentId && newRoundName == "" && newRoundDeadline == ""
    {
      this.tournamentId := tournamentId;
      newRoundName := "";
      newRoundDeadline := "";
    }

    /**
     * `handleAddRound`, with `deadline` the timestamp of the chosen date:
     * adds a round under the name as typed, untrimmed, and clears both inputs.
     */
    method HandleAddRound(store: DataContext.DataStore, deadline: int, now: nat)
      modifies this, store`tournaments
      ensures var ok := RoundAccepted(old(newRoundName), old(newRoundDeadline));
        && store.tournaments == (if ok then DataContext.AppendRound(old(store.tournaments), tournamentId,
                                              DataContext.NewRound(tournamentId, old(newRoundName), deadline, now))
                                 else old(store.tournaments))
        && (ok ==> newRoundName == "" && newRoundDeadline == "")
        && (!ok ==> newRoundName == old(newRoundName) && newRoundDeadline == old(newRoundDeadline))
    {
      if Text.NonBlank(newRoundName) && newRoundDeadline != "" {
        store.AddRound(tournamentId, newRoundName, deadline, now);
        newRoundName := "";
        newRoundDeadline := "";
      }
    }

    /** The delete button: removes the tournament once the admin confirms. */
    method HandleDelete(store: DataContext.DataStore, confirmed: bool)
      modifies store`tournaments, store`selectedTournament
      ensures confirmed ==> store.tournaments == DataContext.Remove(old(store.tournaments), tournamentId)
      ensures confirmed ==>
                store.selectedTournament ==
                  (if old(store.selectedTournament).Some? && old(store.selectedTournament).value.id == tournamentId
                   then None else old(store.selectedTournament))
      ensures !confirmed ==> store.tournaments == old(store.tournaments) && store.selectedTournament == old(store.selectedTournament)
    {
      if confirmed {
        store.DeleteTournament(tournamentId);
      }
    }
  }

  /** `RoundEditor`'s state: the new game's team names, the typed results and the typed goals. */
  class RoundEditor {
    const tournamentId: string
    var teamA: string
    var teamB: string
    var editingResults: map<string, ScoreForms.ScoreEdit>
    var scorers: map<string, Text.Digits>

    constructor (tournamentId: string)
      ensures this.tournamentId == tournamentId
      ensures teamA == "" && teamB == "" && editingResults == map[] && scorers == map[]
    {
      this.tournamentId := tournamentId;
      teamA := "";
      teamB := "";
      editingResults := map[];
      scorers := map[];
    }

    /**
     * `handleAddGame`: adds the game `GameRequest` builds to the round the
     * component currently shows, and clears both names.
     */
    method HandleAddGame(store: DataContext.DataStore, round: Round, now: nat)
      modifies this`teamA, this`teamB, store`tournaments
      ensures var game := GameRequest(old(teamA), old(teamB));
        && store.tournaments == (if game.Some? then DataContext.EditTournaments(old(store.tournaments), tournamentId, round.id,
                                                      DataContext.AppendGame(DataContext.NewGame(game.value, now)))
                                 else old(store.tournaments))
        && (game.Some? ==> teamA == "" && teamB == "")
        && (game.None? ==> teamA == old(teamA) && teamB == old(teamB))
    {
      if Text.NonBlank(teamA) && Text.NonBlank(teamB) {
        var a, b := Text.Trim(teamA), Text.Trim(teamB);
        store.AddGameToRound(tournamentId, round.id, DataContext.GameData(a, b, Some(LogoUrl(a)), Some(LogoUrl(b)), None, None), now);
        teamA := "";
        teamB := "";
      }
    }

    /** `handleResultChange` */
    method HandleResultChange(gameId: string, team: ScoreForms.Team, value: string)
      modifies this`editingResults
      ensures editingResults == ScoreForms.Edited(old(editingResults), gameId, team, value)
    {
      var before := if gameId in editingResults then editingResults[gameId] else ScoreForms.ScoreEdit(None, None);
      var digits := Text.DigitsOnly(value);
      var after := if team == ScoreForms.TeamA then before.(scoreA := Some(digits)) else before.(scoreB := Some(digits));
      editingResults := editingResults[gameId := after];
    }

    /** `handleScorerChange`: the player's input keeps the digits typed; no other input changes. */
    method HandleScorerChange(playerId: string, value: string)
      modifies this`scorers
      ensures scorers == old(scorers)[playerId := Text.DigitsOnly(value)]
    {
      scorers := scorers[playerId := Text.DigitsOnly(value)];
    }

    /**
     * `handleSaveResults`: sends the saved games of the round as currently
     * shown, and the scorers above zero; the round then counts for the
     * leaderboard. Returns what it sent.
     */
    method HandleSaveResults(store: DataContext.DataStore, round: Round) returns (updatedGames: seq<Game>, finalScorers: map<string, nat>)
      modifies store`tournaments
      ensures updatedGames == UpdatedGames(round.games, editingResults)
      ensures forall id :: id in finalScorers <==> id in scorers && scorers[id] != "" && Text.ParseDigits(scorers[id]) > 0
      ensures forall id :: id in finalScorers ==> finalScorers[id] == Text.ParseDigits(scorers[id])
      ensures store.tournaments == DataContext.EditTournaments(old(store.tournaments), tournamentId, round.id,
                                                              DataContext.SetResults(updatedGames, finalScorers))
    {
      updatedGames := UpdatedGames(round.games, editingResults);
      finalScorers := FinalScorers(scorers);
      store.UpdateRoundResults(tournamentId, round.id, updatedGames, finalScorers);
    }
  }
}
