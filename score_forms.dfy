/**
 * The score inputs shared by the bet form (`pages/TournamentPage.tsx`) and
 * the admin result form (`pages/AdminPage.tsx`): a map from game id to the
 * two text fields of that game, where a field the user never touched is
 * `undefined`, and the change handler that keeps only the digits typed.
 */
module ScoreForms {
  import opened Wrappers
  import Text

  /** Which of a game's two inputs changed (`team: 'A' | 'B'`). */
  datatype Team = TeamA | TeamB

  /** `{ scoreA, scoreB }` for one game; `None` is a field never set. */
  datatype ScoreEdit = ScoreEdit(scoreA: Option<Text.Digits>, scoreB: Option<Text.Digits>)

  /**
   * `{ ...prev, [gameId]: { ...prev[gameId], [side]: value.replace(/[^0-9]/g, '') } }`:
   * the named side of the named game gets the digits of the value; its other
   * side keeps what it had, `undefined` when the game had no entry yet.
   */
  function Edited(edits: map<string, ScoreEdit>, gameId: string, team: Team, value: string): (r: map<string, ScoreEdit>)
    ensures r.Keys == edits.Keys + {gameId}
    ensures forall id :: id in edits && id != gameId ==> r[id] == edits[id]
    ensures var old_ := if gameId in edits then edits[gameId] else ScoreEdit(None, None);
      && (team == TeamA ==> r[gameId] == old_.(scoreA := Some(Text.DigitsOnly(value))))
      && (team == TeamB ==> r[gameId] == old_.(scoreB := Some(Text.DigitsOnly(value))))
  {
    var before := if gameId in edits then edits[gameId] else ScoreEdit(None, None);
    var digits := Text.DigitsOnly(value);
    edits[gameId := match team
      case TeamA => before.(scoreA := Some(digits))
      case TeamB => before.(scoreB := Some(digits))]
  }

  /** Typing into both inputs of a game leaves exactly the two digit strings, whatever was there. */
  lemma EditBothSides(edits: map<string, ScoreEdit>, gameId: string, a: string, b: string)
    ensures Edited(Edited(edits, gameId, TeamA, a), gameId, TeamB, b)[gameId]
         == ScoreEdit(Some(Text.DigitsOnly(a)), Some(Text.DigitsOnly(b)))
  {
  }

  /** A field holding at least one digit. */
  predicate Present(field: Option<Text.Digits>) {
    field.Some? && field.value != ""
  }

  /**
   * Both fields of a game hold a number: the guard the forms evidently
   * mean, under which `parseInt` reads a number on each side.
   */
  predicate Filled(edit: ScoreEdit) {
    Present(edit.scoreA) && Present(edit.scoreB)
  }

  /**
   * The guard as written, `result && result.scoreA !== '' && result.scoreB !== ''`:
   * a field that is `undefined` is not `''`, so a side never typed into passes.
   */
  predicate AcceptedAsWritten(edit: ScoreEdit) {
    edit.scoreA != Some("") && edit.scoreB != Some("")
  }

  /**
   * The two guards differ exactly on a game with an untouched side and no
   * emptied side: the written guard accepts it and `parseInt` then reads `NaN`.
   */
  lemma GuardsDiffer(edit: ScoreEdit)
    ensures Filled(edit) ==> AcceptedAsWritten(edit)
    ensures AcceptedAsWritten(edit) && !Filled(edit) <==>
      AcceptedAsWritten(edit) && (edit.scoreA.None? || edit.scoreB.None?)
    ensures Filled(edit) <==>
      Text.ParseInt(edit.scoreA).Num? && Text.ParseInt(edit.scoreB).Num?
  {
  }

  /** A game where only side A was typed into passes the written guard and reads `NaN` for side B. */
  lemma HalfTypedPasses()
    ensures var edit := ScoreEdit(Some("2"), None);
      && AcceptedAsWritten(edit)
      && !Filled(edit)
      && Text.ParseInt(edit.scoreA) == Text.Num(2)
      && Text.ParseInt(edit.scoreB) == Text.NaN
  {
    var two: Text.Digits := "2";
    assert Text.ParseDigits(two) == 10 * Text.ParseDigits("") + 2;
  }
}
