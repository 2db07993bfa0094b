# Campeonato Inova de Palpites — a Dafny model of the scoring core

Campeonato Inova de Palpites is a football prediction pool. Participants bet
on the final score of each game of a round and pick the round's top scorer.
An administrator then records the results, and every participant is ranked on
a leaderboard.

This project models the part of the application that decides who earns what:

- **The store** (`context/DataContext.tsx`, modules `Scoring` and `DataContext`).
  - `Scoring` gives what `getLeaderboard` computes as functions:
    - the per-bet award;
    - what each user accrues from a tournament's rounds;
    - the accumulators built from the user list;
    - the stable sort on (points, exact scores, top-scorer goals).
  - `DataContext.DataStore` is the provider's state, held as a class.
    - Its methods are the write operations: select, add, rename and delete a
      tournament; add a round; add a game; submit bets; record results.
    - `GetLeaderboard` keeps the source's nested loops over a dictionary of
      accumulators and is proved to return `Scoring.Leaderboard`.
    - Lemmas state what each write does to every leaderboard. Adding a round,
      adding an unscored game and renaming change none. Deleting empties only
      the deleted id's leaderboard.
- **The seed data** (`Seed`). The lemmas compute the seed leaderboard:
  - Alice: 9 points, 1 exact score, 2 top-scorer goals.
  - Bob: 4 points, 1 exact score, 0 goals.
  - Alice ranks first; the two admins have no line.
- **The bet form** (`pages/TournamentPage.tsx`, module `TournamentPage`):
  - the prefill from the stored bets;
  - digit-only score inputs;
  - the save that turns the form into `Bet`s;
  - the lock flag, the betting toggle and the timer-end handler.
- **The admin panel** (`pages/AdminPage.tsx`, module `AdminPage`):
  - the admin-only guard;
  - the add guards for tournaments, rounds and games;
  - the result form that becomes the games' final scores and the scorer map.
- **The shared score inputs** (module `ScoreForms`): a map from game id to the
  two text fields, and the change handler that keeps only the digits.
- **The bet history page** (`pages/BetHistoryPage.tsx`, module `BetHistory`):
  - `getBetResult`, proved to agree with the leaderboard on every bet;
  - which rounds and rows are listed;
  - the top-scorer line;
  - the open-tournament toggle.
- **The session** (`context/AuthContext.tsx`, module `AuthContext`): login,
  logout, registration with a duplicate-email check, and replace-by-id on the
  shared user list.
- **The countdown** (`components/CountdownTimer.tsx`, module `CountdownTimer`):
  - the split of the remaining milliseconds into days, hours, minutes and
    seconds, proved to be a clock reading of the remaining time;
  - the tick that stops at the deadline and calls `onEnd` at most once;
  - the rendered components.

Shared pieces:

- `Types` mirrors `types.ts`. Optional fields are `Option`s. Counts, scores
  and goals are `nat`; timestamps are `int`.
- `Text` models the digit filter, `parseInt`, `String(n)` and `trim`.
  - `trim` uses the ECMAScript white-space and line-terminator set.
- `Seqs` states `find`, `findIndex` and `filter` once.
- `Date.now()` is always a parameter `now`.

### Where the code and the system's written design differ

The model follows the code here. The only exceptions are the two save handlers listed under "## Left out" and "## Findings".

- **No lock check in the store.**
  - The design rejects bets on a locked or resulted round.
  - `submitBets` checks neither the deadline nor the game ids (`context/DataContext.tsx:151-176`).
  - Only the form hides itself while locked (`pages/TournamentPage.tsx:218`).
- **The lock is a stored flag.**
  - The design re-evaluates the lock from the deadline on every read.
  - The form sets `isLocked` once, when mounted, as `deadline < now`, and again when the timer ends.
  - The timer that calls `onEnd` exists only while the round is open (`pages/TournamentPage.tsx:182-184`), and saving bets closes the round (`pages/TournamentPage.tsx:159`).
  - So a round mounted before its deadline and not open when the deadline passes never locks. When it is opened later, its timer mounts already expired and never calls `onEnd` (`TournamentPage.LateTimerNeverLocks`). This is the ordinary case, not an edge case.
  - `toggleBetting` and `handleSaveBets` then accept bets after the deadline (`TournamentPage.LateBet`), and `submitBets` does not check the deadline either.
- **The form's pick goes stale.**
  - The design shows each user their current pick.
  - The bet form's round comes from the copy of the tournament made when it was selected, and no save refreshes it (`context/DataContext.tsx:92-98`, `pages/TournamentPage.tsx:290-291`).
  - The prefill effect runs again on every store update (`pages/TournamentPage.tsx:127`). After a save that changes the pick, it puts the old pick back into the form, and the next save records the old pick again (`TournamentPage.StalePickAfterSave`).
- **No rejection of unknown ids.**
  - The design rejects a command on an unknown tournament, round or game.
  - The code leaves the lists unchanged for `addRound`, `addGameToRound` and `updateRoundResults`.
  - For `submitBets` the code still appends the bets, because the round's game ids come out empty.
- **A game needs both scores.**
  - The design skips a game only when both final scores are absent.
  - `getLeaderboard` skips a game when either one is absent (`context/DataContext.tsx:222`).
- **The first-bet badge.**
  - The design grants it on the first bet accepted.
  - The code grants it on the first call to `submitBets`, even with an empty list of bets.
- **Ids are not assumed fresh.**
  - Duplicate ids behave as in the code: `find` takes the first match and `map` edits every match.
  - `DataContext.TournamentIdInjective`, `RoundIdInjective` and `GameIdInjective` prove that ids made at different instants differ.

## Model

| member | source | states |
|---|---|---|
| Types.GameIds | context/DataContext.tsx:153 | the round's game ids, one per game, in game order |
| Text.DigitsOnly | pages/AdminPage.tsx:144 | the filtered input is exactly the input's characters 0-9, in their order: it equals filtering the input on the digits, so it holds only digits, is no longer than the input, and leaves a digit string unchanged |
| Text.DigitsOnlyConcat | pages/AdminPage.tsx:144 | the filter works piecewise: filtering a concatenation is concatenating the filtered pieces |
| Text.ParseInt | pages/AdminPage.tsx:155 | `parseInt` of a score field is `NaN` exactly when the field is `undefined` or empty, otherwise the number its digits spell |
| Text.NatToString | context/DataContext.tsx:103 | a number's decimal text is non-empty, all digits, with no leading zero |
| Text.ParseNatToString | pages/TournamentPage.tsx:122 | parsing `String(n)` gives back `n` |
| Text.NatToStringParse | pages/TournamentPage.tsx:149 | printing a parsed digit string without a superfluous leading zero gives back the string |
| Text.TrimSpec | pages/AdminPage.tsx:14-15 | `trim` returns a contiguous piece of the input that neither starts nor ends with white space, and it is empty exactly when the input is all white space |
| Text.NonBlank | pages/AdminPage.tsx:14 | `s.trim()` is truthy exactly when `s` holds a character that is not white space |
| Text.TrimIdempotent | pages/AdminPage.tsx:14-15 | trimming an already trimmed name changes nothing |
| Scoring.BetAwardRule | context/DataContext.tsx:223-233 | an exact score earns 3 points and one exact score; otherwise the right three-way outcome earns 1 point; otherwise 0; the two awards exclude each other and no goals are credited |
| Scoring.OutcomeIsSign | context/DataContext.tsx:224-225 | the outcome 'A'/'B'/'D' is the sign of the goal difference, 0-0 being a draw like any equal pair |
| Scoring.JsOutcome | context/DataContext.tsx:224-225 | on JavaScript numbers the outcome is the numeric outcome, and any `NaN` side reads as a draw |
| Scoring.JsBetAwardOnNumbers | context/DataContext.tsx:222-233 | on whole numbers the per-bet rule on JavaScript numbers is the scoring rule |
| Scoring.PickRule | context/DataContext.tsx:238-247 | a top-scorer pick adds 3 points per goal and the goals when its player scored; no pick, an unlisted player or zero goals add nothing |
| Scoring.OpenRoundsDoNotCount | context/DataContext.tsx:217-218 | what a user accrues from a tournament equals what they accrue from its rounds with results entered alone |
| Scoring.PointsCoverExactAndGoals | context/DataContext.tsx:217-247 | every user's points are at least 3 per exact score plus 3 per top-scorer goal |
| Scoring.Accumulators | context/DataContext.tsx:206-215 | the accumulator dictionary has exactly one key per user id in the list |
| Scoring.AccumulatorKeys | context/DataContext.tsx:251 | `Object.values` visits every key of the accumulator dictionary, and each key once |
| Scoring.AccumulatorStart | context/DataContext.tsx:206-214 | each accumulator starts at 0/0/0 with the name and avatar of the last listed user with that id |
| Scoring.Standings | context/DataContext.tsx:204-249 | one unsorted line per accumulator key |
| Scoring.Insert | context/DataContext.tsx:251-255 | inserting a line adds exactly that line |
| Scoring.RankSort | context/DataContext.tsx:251-255 | the sort is a permutation of its input |
| Scoring.RankSortSorted | context/DataContext.tsx:251-255 | the sorted leaderboard is ordered descending on (totalPoints, exactScores, topScorerGoals), lexicographically |
| Scoring.RankSortStable | context/DataContext.tsx:251-255 | lines tied on all three keys keep their input order |
| Scoring.RankSortDistinct | context/DataContext.tsx:251-255 | sorting never duplicates or merges users |
| Scoring.SortedStandings | context/DataContext.tsx:204-255 | the sorted standings are ordered, one line per distinct participant id, cover every participant, and a permutation of the accumulators, each line holding the display name and exactly the tally |
| Scoring.LeaderboardLines | context/DataContext.tsx:200-256 | for a known tournament the leaderboard has one line per distinct non-admin user id, each being `teamName (firstName)` plus exactly what the user accrued, sorted best first, a permutation of the accumulators |
| Scoring.StandingsCover | context/DataContext.tsx:206-215 | every non-admin user has a line |
| Scoring.StandingsDistinct | context/DataContext.tsx:204-215 | no user has two lines |
| Scoring.LeaderboardUnknown | context/DataContext.tsx:201-202 | an unknown tournament id yields an empty leaderboard |
| Scoring.OnlyResultedRoundsMatter | context/DataContext.tsx:217-218 | two tournaments with the same resulted rounds give the same leaderboard |
| DataContext.InitAccumulators | context/DataContext.tsx:204-215 | the accumulator loop builds `Scoring.Accumulators`, with keys in first-insertion order |
| DataContext.CreditBet | context/DataContext.tsx:221-234 | one bet adds its award to its user's accumulator when that accumulator exists and the game has both final scores; no key is added or removed |
| DataContext.CreditBets | context/DataContext.tsx:220-235 | the bets on a game add exactly their summed awards to each accumulator |
| DataContext.CreditGames | context/DataContext.tsx:219-236 | a round's games add exactly `Scoring.GamesTally` to each accumulator |
| DataContext.CreditPicks | context/DataContext.tsx:238-247 | the top-scorer loop adds exactly each user's pick tally, whatever order the keys are visited in |
| DataContext.CreditRound | context/DataContext.tsx:218-248 | a round adds its games and picks once its results are entered, and nothing otherwise |
| DataContext.CreditRounds | context/DataContext.tsx:217-249 | the rounds loop adds exactly `Scoring.RoundsTally` to each accumulator |
| DataContext.TournamentIdInjective | context/DataContext.tsx:103 | `t-${now}` ids are equal exactly when the instants are |
| DataContext.RoundIdInjective | context/DataContext.tsx:124 | `r-${tournamentId}-${now}` ids within one tournament are equal exactly when the instants are |
| DataContext.GameIdInjective | context/DataContext.tsx:136 | `g-${now}` ids are equal exactly when the instants are |
| DataContext.Selection | context/DataContext.tsx:92-99 | the selection is a listed tournament with the given id; it is nothing exactly when the id is null or empty, or no tournament has it |
| DataContext.EditShape | context/DataContext.tsx:135-191 | a round edit keeps every tournament's id, name, image and round ids, and rewrites exactly the rounds with the round id inside the tournaments with the tournament id |
| DataContext.ResultsEntered | context/DataContext.tsx:178-191 | a rewritten round holds the given games and scorers and counts from then on; its picks, name and deadline stay |
| DataContext.ResultsIdempotent | context/DataContext.tsx:178-191 | recording the same results twice is recording them once |
| DataContext.PickRecorded | context/DataContext.tsx:158-170 | the user's pick becomes the given player; every other user's pick, the games, the scorers and the results flag stay |
| DataContext.BoardsAgree | context/DataContext.tsx:201-249 | tournament lists with the same ids and the same per-user tallies give every id the same leaderboard |
| DataContext.AddRoundKeepsBoards | context/DataContext.tsx:122-133 | adding a round changes no leaderboard |
| DataContext.UnscoredGameTally | context/DataContext.tsx:222 | no bet earns anything on a game missing a final score |
| DataContext.AppendUnscoredGame | context/DataContext.tsx:139-145 | appending a game without a final score leaves every user's tally unchanged |
| DataContext.AddGameKeepsBoards | context/DataContext.tsx:135-149 | adding a game that has no result yet changes no leaderboard |
| DataContext.RenameKeepsBoards | context/DataContext.tsx:111-113 | renaming a tournament changes no leaderboard |
| DataContext.RemoveKeepsOthers | context/DataContext.tsx:116 | after removing one id, the first tournament with any other id is unchanged |
| DataContext.DeleteBoards | context/DataContext.tsx:115-120 | after deleting, the deleted id has an empty leaderboard and every other id keeps its leaderboard |
| DataContext.ResubmitReplaces | context/DataContext.tsx:151-156 | after submitting, the pool holds the new bets at its end, before them every other bet it held, and no earlier bet of the user on one of the round's games |
| DataContext.ResubmitIdempotent | context/DataContext.tsx:151-156 | submitting the same bets on a round twice is submitting them once |
| DataContext.KeptStayKept | context/DataContext.tsx:154 | the bets kept by the filter are kept again by it |
| DataContext.UserBetsForRound | context/DataContext.tsx:193-198 | the user's bets are exactly the pool's bets by that user on the round's games; the top scorer is the known player the user picked, and is missing exactly when there is no pick or the pick is not a known player |
| DataContext.GrantFirstBet | context/DataContext.tsx:172-175 | the user holds the first-bet badge afterwards; it is appended, dated now, only when the user did not hold it |
| DataContext.GrantKeepsFirstBetOnce | context/DataContext.tsx:172-175 | no user ever holds the first-bet badge twice |
| DataContext.GrantIdempotent | context/DataContext.tsx:172-175 | a later submission keeps the first badge and its date |
| DataContext.DataStore.constructor | context/DataContext.tsx:86-90 | the store starts from the given tournaments, players and bets (the seed lists), with no achievements and nothing selected |
| DataContext.DataStore.SelectTournament | context/DataContext.tsx:92-99 | the selection becomes `Selection` of the id |
| DataContext.DataStore.AddTournament | context/DataContext.tsx:101-109 | appends one tournament with a time-based id and no rounds |
| DataContext.DataStore.UpdateTournament | context/DataContext.tsx:111-113 | every tournament with the id takes the new name and image; nothing else changes |
| DataContext.DataStore.DeleteTournament | context/DataContext.tsx:115-120 | removes every tournament with the id and clears the selection when it was that tournament |
| DataContext.DataStore.AddRound | context/DataContext.tsx:122-133 | appends an empty round without results to every tournament with the id |
| DataContext.DataStore.AddGameToRound | context/DataContext.tsx:135-149 | appends the game, with a time-based id, to the matching rounds |
| DataContext.DataStore.SubmitBets | context/DataContext.tsx:151-176 | replaces the user's bets on the round's games, looking the round up first; records the pick; grants the first-bet badge once; keeps the badge unique per user |
| DataContext.DataStore.UpdateRoundResults | context/DataContext.tsx:178-191 | the matching rounds take the games and scorers and are marked resulted |
| DataContext.DataStore.GetLeaderboard | context/DataContext.tsx:200-256 | the nested loops and the sort return exactly `Scoring.Leaderboard` |
| AuthContext.FindByCredentials | context/AuthContext.tsx:21 | finds the first user whose email and password hash both match, and nothing exactly when none matches |
| AuthContext.Registered | context/AuthContext.tsx:33-47 | registration is refused exactly when the email is taken; otherwise exactly one user is appended, not an admin, with the form's name, team, email and password hash |
| AuthContext.RegisterKeepsEmailsUnique | context/AuthContext.tsx:34-44 | registration keeps emails unique |
| AuthContext.RegisteredCanLogIn | context/AuthContext.tsx:20-46 | after registering, logging in with the email and password given finds exactly the new user |
| AuthContext.ReplaceFirstById | context/AuthContext.tsx:51-54 | exactly the first user with the id is replaced; without one the list is unchanged; ids stay in place |
| AuthContext.ReplaceIdempotent | context/AuthContext.tsx:49-55 | replacing the same user twice is replacing it once |
| AuthContext.Auth.constructor | context/AuthContext.tsx:18 | nobody is logged in at the start |
| AuthContext.Auth.Login | context/AuthContext.tsx:20-27 | succeeds exactly when some user matches, and then the first match becomes current; a failure changes nothing |
| AuthContext.Auth.Logout | context/AuthContext.tsx:29-31 | nobody is current afterwards |
| AuthContext.Auth.Register | context/AuthContext.tsx:33-47 | a taken email is refused with nothing changed; otherwise the new user is appended and made current; unique emails stay unique |
| AuthContext.Auth.UpdateUser | context/AuthContext.tsx:49-55 | the argument becomes current, and the list is `ReplaceFirstById` of it |
| CountdownTimer.CalculateTimeLeft | components/CountdownTimer.tsx:11-24 | the result is empty exactly when the deadline is not in the future; otherwise it has four fields: dias, horas, minutos, segundos |
| CountdownTimer.DivDiv | components/CountdownTimer.tsx:19 | dividing by 1000 and then by 60 is dividing by 60000 |
| CountdownTimer.TimeLeftDecomposes | components/CountdownTimer.tsx:16-21 | dias is the difference div 86400000; horas is below 24, minutos and segundos below 60; together they are the difference rounded down to whole seconds |
| CountdownTimer.ExpiredStaysExpired | components/CountdownTimer.tsx:12-15 | once the time is up it stays up |
| CountdownTimer.TickOutcome | components/CountdownTimer.tsx:28-43 | no tick is scheduled once the time left is empty; otherwise the time left is recomputed, and `onEnd` is called exactly when it became empty |
| CountdownTimer.NoEndAfterExpiry | components/CountdownTimer.tsx:29-31 | after expiry no tick calls `onEnd` |
| CountdownTimer.EndCalledAtMostOnce | components/CountdownTimer.tsx:33-39 | over any run of ticks, `onEnd` is called at most once |
| CountdownTimer.Countdown.constructor | components/CountdownTimer.tsx:26 | the timer starts from the time left at mount |
| CountdownTimer.Countdown.Tick | components/CountdownTimer.tsx:28-43 | one effect run and its timeout do what `TickOutcome` says |
| CountdownTimer.TimerComponents | components/CountdownTimer.tsx:46-56 | one component per field, in order, with the field's key, value and caption |
| CountdownTimer.Display | components/CountdownTimer.tsx:58-66 | "Tempo esgotado!" shows exactly when there are no components |
| CountdownTimer.Render | components/CountdownTimer.tsx:46-66 | the time-up message shows exactly when the deadline is not in the future; otherwise four components show |
| ScoreForms.Edited | pages/AdminPage.tsx:143-145 | only the named side of the named game changes, to the digits typed; the other side keeps its value (undefined for a new entry); other games are untouched |
| ScoreForms.EditBothSides | pages/TournamentPage.tsx:129-138 | typing into both sides leaves exactly the two digit strings |
| ScoreForms.GuardsDiffer | pages/TournamentPage.tsx:145 | the written guard accepts every filled entry; it also accepts exactly the entries with an untouched side and no emptied side; filled means both sides parse to numbers |
| ScoreForms.HalfTypedPasses | pages/AdminPage.tsx:154-155 | an entry typed on side A only passes the written guard, and side B parses to `NaN` |
| AdminPage.View | pages/AdminPage.tsx:20-22 | the panel shows exactly for a logged-in admin; everyone else sees the refusal |
| AdminPage.TournamentName | pages/AdminPage.tsx:13-18 | a tournament is added exactly when the input is not blank, under the trimmed name |
| AdminPage.GameRequest | pages/AdminPage.tsx:128-141 | a game is added exactly when both names are not blank, with the trimmed names, a logo each and no result |
| AdminPage.AddedGameKeepsBoards | pages/AdminPage.tsx:128-137 | a game added from the panel changes no leaderboard |
| AdminPage.Shown | pages/AdminPage.tsx:190-192 | a side shows the typed number, nothing when emptied, and the stored score when never typed into |
| AdminPage.SavedGameRule | pages/AdminPage.tsx:152-158 | only final scores change; a game with no entry or an emptied side is unchanged; a fully typed game takes the typed numbers; a changed game has both scores |
| AdminPage.UpdatedGamesShape | pages/AdminPage.tsx:152-158 | the saved games have the round's length, order, ids, teams and logos |
| AdminPage.SaveIdempotent | pages/AdminPage.tsx:151-158 | saving the same form twice gives the games saving it once gives |
| AdminPage.SavedAgreesWithWritten | pages/AdminPage.tsx:152-158 | on entries with no untouched side, the corrected save and the written one store the same scores |
| AdminPage.HalfTypedResultScoresDraw | pages/AdminPage.tsx:153-156 | typing only side A stores `NaN` on side B, and a 1-1 bet then earns a draw point; the corrected save leaves the game unscored |
| AdminPage.FinalScorers | pages/AdminPage.tsx:159-164 | the scorer map holds exactly the inputs typed this session that parse above 0, with those numbers |
| AdminPage.TournamentsPanel.constructor | pages/AdminPage.tsx:10 | the name input starts empty |
| AdminPage.TournamentsPanel.HandleAddTournament | pages/AdminPage.tsx:13-18 | adds the trimmed name, without an image, and clears the input exactly when the name is not blank |
| AdminPage.TournamentEditor.constructor | pages/AdminPage.tsx:72-73 | the round name and deadline inputs start empty |
| AdminPage.TournamentEditor.HandleAddRound | pages/AdminPage.tsx:75-82 | adds a round under the untrimmed name exactly when the name is not blank and a deadline is chosen, and then clears both inputs |
| AdminPage.TournamentEditor.HandleDelete | pages/AdminPage.tsx:89 | when confirmed, removes the tournament and clears the selection if it was that tournament; otherwise nothing changes |
| AdminPage.RoundEditor.constructor | pages/AdminPage.tsx:122-126 | the team names, typed results and typed goals start empty; the round itself is not state but the current prop, passed to the handlers that read it |
| AdminPage.RoundEditor.HandleAddGame | pages/AdminPage.tsx:128-141 | adds `GameRequest`'s game to the round currently shown and clears both names, exactly when both names are not blank |
| AdminPage.RoundEditor.HandleResultChange | pages/AdminPage.tsx:143-145 | the typed results become `ScoreForms.Edited` of the change |
| AdminPage.RoundEditor.HandleScorerChange | pages/AdminPage.tsx:147-149 | only the player's input changes, to the digits typed |
| AdminPage.RoundEditor.HandleSaveResults | pages/AdminPage.tsx:151-166 | sends the saved games of the round as currently shown and the scorers above zero; the store's matching rounds then hold them and are marked as resulted |
| TournamentPage.PrefilledEdit | pages/TournamentPage.tsx:122 | a prefilled entry has both sides filled |
| TournamentPage.Prefill | pages/TournamentPage.tsx:120-123 | the form has an entry exactly for the games the user bet on, each filled |
| TournamentPage.PrefillLast | pages/TournamentPage.tsx:121-123 | a game's entry holds the scores of the user's last bet on it |
| TournamentPage.InitialBets | pages/TournamentPage.tsx:117-127 | the prefill loop builds `Prefill` of the user's bets |
| TournamentPage.FinalBetsSound | pages/TournamentPage.tsx:142-155 | every submitted bet is the user's, on a game of the round whose two inputs hold numbers, with those numbers; there are no more bets than games |
| TournamentPage.FinalBetsComplete | pages/TournamentPage.tsx:143-155 | a game of the round gets a bet exactly when both its inputs hold a number |
| TournamentPage.FinalBetsInOrder | pages/TournamentPage.tsx:142-155 | the bets follow the round's game order |
| TournamentPage.AtMostOneBetPerGame | pages/TournamentPage.tsx:142-155 | no game gets two bets when the round's game ids are distinct |
| TournamentPage.SaveUnchangedPrefill | pages/TournamentPage.tsx:117-155 | saving an untouched prefilled form submits exactly the user's stored bets on the round's games |
| TournamentPage.SaveTwice | pages/TournamentPage.tsx:140-157 | saving the same form twice stores the bets saving it once stores |
| TournamentPage.FinalBetsAgreeWithWritten | pages/TournamentPage.tsx:144-151 | on entries with no untouched side, the corrected bets and the written ones agree |
| TournamentPage.HalfTypedBetScoresDraw | pages/TournamentPage.tsx:144-151 | typing only side A submits `NaN` on side B, and that bet earns a draw point on a 0-0 game; the corrected save submits no bet there |
| TournamentPage.LateTimerNeverLocks | pages/TournamentPage.tsx:114-184 | a round mounted no later than its deadline starts unlocked, and a timer mounted at or after the deadline is already expired and never calls `onEnd`, so nothing locks the round |
| TournamentPage.LateBet | pages/TournamentPage.tsx:114-184 | a round mounted before its deadline and opened after it goes into betting mode, and its timer calls no `onEnd`; a score typed on both sides of one of its games is submitted as that game's bet, and the store's bets become the submitted ones |
| TournamentPage.StalePickAfterSave | pages/TournamentPage.tsx:117-127 | after a save changes the pick, the prefill effect reads the selected tournament's stale round and puts the old pick back into the form; the next save records the old pick again |
| TournamentPage.RoundForm.constructor | pages/TournamentPage.tsx:110-115 | the form starts closed, not betting, empty, and locked exactly when `deadline < now` |
| TournamentPage.RoundForm.FormVisible | pages/TournamentPage.tsx:218 | the inputs render only when betting and not locked, so under the invariant exactly while betting |
| TournamentPage.RoundForm.LoadUserBets | pages/TournamentPage.tsx:117-127 | with a user, the form takes the prefill of the stored bets on the round passed in, and that round's recorded pick when it names a known player; without one nothing changes |
| TournamentPage.RoundForm.HandleScoreChange | pages/TournamentPage.tsx:129-138 | the form becomes `ScoreForms.Edited` of the change |
| TournamentPage.RoundForm.HandleSaveBets | pages/TournamentPage.tsx:140-160 | does nothing without a user or a pick; otherwise submits `FinalBets` of the round currently shown with the pick, as `submitBets` does, and closes the form |
| TournamentPage.RoundForm.HandleTimerEnd | pages/TournamentPage.tsx:162-165 | the round is locked and betting stops |
| TournamentPage.RoundForm.ToggleBetting | pages/TournamentPage.tsx:167-171 | nothing happens while locked; otherwise betting flips and the round opens; never betting while locked |
| TournamentPage.RoundForm.ToggleOpen | pages/TournamentPage.tsx:175 | the round header flips open and closed |
| BetHistory.VerdictMatchesLeaderboard | pages/BetHistoryPage.tsx:17-30 | the points shown for a bet are the points the leaderboard credits; "Placar Exato" shows exactly for exact scores; "Aguardando" shows exactly when a final score is missing |
| BetHistory.VerdictLabels | pages/BetHistoryPage.tsx:17-30 | the four verdicts go with 3, 1, 0 and 0 points; with a result, 3 means exact and at least 1 means the right outcome |
| BetHistory.RowsSound | pages/BetHistoryPage.tsx:76-93 | every row pairs a game of the round with one of the user's bets on it, and shows that bet's verdict |
| BetHistory.RowsComplete | pages/BetHistoryPage.tsx:76-80 | a game gets a row exactly when the user bet on it |
| BetHistory.RoundHistory | pages/BetHistoryPage.tsx:47-54 | a round renders nothing exactly when the user has no bet on its games and no pick naming a known player |
| BetHistory.ListedRounds | pages/BetHistoryPage.tsx:48-54 | a round is listed exactly when the user bet on one of its games or picked a known player |
| BetHistory.PickLineMatchesLeaderboard | pages/BetHistoryPage.tsx:52-63 | once results are in, the top-scorer line shows the goals the leaderboard credits for the pick and three points per goal |
| BetHistory.ListedCards | pages/BetHistoryPage.tsx:47-98 | each listed card is a round of the tournament, rendered as `RoundHistory` renders it, and every round with a history gets its card |
| BetHistory.ListedCardsInOrder | pages/BetHistoryPage.tsx:47-54 | the cards are the histories of exactly the rounds that have one, in round order |
| BetHistory.RenderPage | pages/BetHistoryPage.tsx:13-47 | without a user only the login prompt shows; otherwise there is one section per tournament, only the open one lists rounds, and it lists `ListedCards` of its rounds |
| BetHistory.Toggled | pages/BetHistoryPage.tsx:39 | the header opens a closed tournament and closes the open one |
| BetHistory.ToggleTwice | pages/BetHistoryPage.tsx:39 | clicking twice returns a closed tournament to closed and the open one to open |
| BetHistory.HistoryPage.constructor | pages/BetHistoryPage.tsx:11 | no tournament is open at first |
| BetHistory.HistoryPage.Toggle | pages/BetHistoryPage.tsx:39 | the open tournament becomes `Toggled` of the click |
| Seed.AliceTally | context/DataContext.tsx:43-59 | Alice accrues 9 points, 1 exact score and 2 top-scorer goals |
| Seed.BobTally | context/DataContext.tsx:54-59 | Bob accrues 4 points, 1 exact score and no top-scorer goal |
| Seed.SeedParticipants | context/DataContext.tsx:6-11 | the non-admin seed users are Alice and Bob, in that order |
| Seed.SeedStandings | context/DataContext.tsx:20-59 | before sorting, the lines are Alice's then Bob's, each with its tally |
| Seed.SeedLeaderboard | context/DataContext.tsx:6-59 | the seed leaderboard is Alice (9, 1, 2) then Bob (4, 1, 0), with no line for an admin |
| Seed.SeedLogin | context/DataContext.tsx:6-11 | the seed emails are unique, and Alice logs in with her own credentials |

## Left out

- Persistence (`utils/storage.ts`): `localStorage` and JSON are browser services.
- The login, registration, profile and dashboard pages, the header and `App.tsx`: they only forward to the two contexts.
- In `pages/TournamentPage.tsx`, the medal table and the all-bets modal: these are display only.
- Markup, icons and styles: a rendered row, card, section or timer component is a datatype holding what it shows.
- React scheduling is not modelled: `setTimeout`, `useEffect` and batched state updates.
  - Each handler is one sequential transition on the current state. The handlers that read a component's `round` prop take that round as a parameter.
    - The admin panel's `RoundEditor` gets its round from the store's tournament list, so the caller passes the current round (`pages/AdminPage.tsx:45`, `:103`).
    - The bet form's `RoundComponent` gets its round from `selectedTournament`, a copy made when the tournament was selected (`context/DataContext.tsx:92-98`, `pages/TournamentPage.tsx:290-291`). No save refreshes that copy, so the caller passes the stale round.
  - `submitBets` reads `bets` and `achievements` from its render's closure. The model reads the current fields.
  - The timer's one-second delay is the instant passed to `Tick`.
- `Date.now()` and `new Date(input).getTime()` are parameters.
  - The round deadline reaches `HandleAddRound` already as a timestamp.
- `encodeURIComponent` in the game logos: `AdminPage.LogoUrl` uses the trimmed team name as is.
- `window.confirm` is the boolean parameter of `HandleDelete`.
- JavaScript numbers are modelled only in part.
  - Scores, goals and counts are unbounded `nat`s, so overflow and fractions are not modelled.
  - `NaN` is modelled only where the forms can produce it (`Text.JsNumber`).
  - `Math.floor` of a quotient of whole milliseconds is integer division.
- Object key order is not modelled.
  - `CreditPicks` and `FinalScorers` visit the keys in any order; their results do not depend on it.
  - The leaderboard lists accumulators in insertion order. JavaScript lists integer-like keys (a user id such as "7") first.
- Keys inherited from `Object.prototype` are not modelled. For example, `scores["toString"]` is truthy even without such a user. A map holds only its own keys.
- The user list: the store's `MOCK_USERS` is the `users` argument of `GetLeaderboard`. The same list is the `users` field of `AuthContext.Auth`.
- Achievements other than the first-bet badge are declared in `types.ts` and never granted by these files.
- The pick select and the all-bets button: `setTopScorer` and `setViewAllBets` are plain assignments with nothing to prove.
- BetHistory.PickLineMatchesLeaderboard: stated only for a non-empty pick.
  - For a pick `""` that names a known player, the page shows 0 goals.
  - The leaderboard credits that pick with `scorers[""]` goals.
- AdminPage.RoundEditor.HandleSaveResults: sends the corrected save (`SavedGame`), not the code's. For a game with one side typed and the other never touched, the code stores `NaN` on the untouched side (`pages/AdminPage.tsx:154-155`). The method keeps the stored score there, or leaves the game unchanged when it has none. The code's behaviour is `FinalsAsWritten`; see the first row under Findings.
- TournamentPage.RoundForm.HandleSaveBets: submits the corrected bets (`FinalBets`), not the code's. For a game with one side typed and the other never touched, the code submits a bet with a `NaN` score, which replaces the stored bet (`pages/TournamentPage.tsx:145-150`). The method submits no bet for that game. The code's behaviour is `BetAsWritten`; see the second row under Findings.

## Findings

| source | as written | input that shows it | evidently intended | confidence | as-written member | corrected member |
|---|---|---|---|---|---|---|
| pages/AdminPage.tsx:154 | the save guard tests `!== ''` on both sides, but a side never typed into is `undefined`, which passes, and `parseInt(undefined)` stores `NaN` | on an unscored game the admin types `2` on side A only and saves; side B becomes `NaN`; the leaderboard reads the game as a draw, so a 1-1 bet earns 1 point | a side never typed into falls back to the stored score, as the input shows it; the game is updated only when both sides show a number | not executed | AdminPage.HalfTypedResultScoresDraw | AdminPage.SavedGameRule |
| pages/TournamentPage.tsx:145 | the same guard on the bet form lets a half-typed game through, and `parseInt(undefined, 10)` submits a `NaN` score | the user types `2` on side A of a game only and saves; the bet is 2-`NaN`, which the leaderboard reads as a draw; on a 0-0 game it earns 1 point | a game is bet on only when both inputs hold a number | not executed | TournamentPage.HalfTypedBetScoresDraw | TournamentPage.FinalBetsComplete |
