# MasterUnalApp game and query core in Dafny

This project models the logic behind four features of MasterUnalApp, an Android
app written in Kotlin:

- **Tic-Tac-Toe against the phone.** `TicTacToeGame` is the engine. It holds a
  9-cell board, applies the win/draw rule (`checkForWinner`: 0 the game goes on,
  1 draw, 2 the human 'X' won, 3 the computer 'O' won) and picks the computer's
  move at the levels Easy, Harder and Expert. `TicTacToeViewModel` is the
  session around it. It flips who starts at every new game, ignores clicks that
  are not allowed, runs the computer's move as a separate step and keeps the
  counters of wins, losses and ties.
- **Online Tic-Tac-Toe.** `FirebaseGameRepository` keeps the shared match
  documents (`OnlineGame`). Each operation creates, joins, moves in, deletes or
  lists them as one validated read-modify-write. `OnlineGameViewModel` is one
  player's client. It derives that player's screen from each snapshot of the
  document and forwards the player's actions to the repository.
- **Crime-statistics query.** `DataCatalogViewModel` folds the accents of place
  names (`normalizarTexto`) and builds the request URL for the open-data
  service from the user's filters.
- **Company classification.** `CompanyClassification.fromString` decodes the
  enum name stored in the database.

The files and the modules they hold:

- `tictactoe_game.dfy` (`TicTacToe`): the board is an `array` inside the
  `TicTacToeGame` class. Each method is proved against the rule functions
  `Winner`, `FirstCompleting` and `ComputerMoveAllowed`.
- `tictactoe_viewmodel.dfy` (`TicTacToeSession`): the session is a class whose
  methods update the engine and a screen-state record. Their results are stated
  through the pure functions `AfterMove`, `AfterHumanMove` and `NewGameState`.
- `online_game.dfy` (`OnlineGames`): the match document, the online win rule
  `checkWinner`, and the pure outcome of creating, joining and moving.
- `game_repository.dfy` (`GameRepository`): the store is a map from game id to
  document. The invariant `StoredGameValid` is kept by every write.
- `online_viewmodel.dfy` (`OnlineSession`): the client's screen and sound rules,
  and the view-model class.
- `data_catalog.dfy` (`DataCatalog`): the accent folding, the parameter list
  and the URL.
- `company.dfy` (`Companies`): the classification and its decoder.
- `types.dfy` (`Types`): `Option` and `Result`.

Each coroutine body (`viewModelScope.launch { … }`) is modelled as one atomic
step. The timer that runs the computer's move one second later becomes the
event `ComputerMoveCompleted`. A snapshot pushed by the database listener
becomes a call to `OnGameSnapshot`.

Four behaviours of the code as written are modelled as they are:

- After the computer moves in a game that goes on, the local screen still says
  "Turno de Android...". The message is chosen while the computer's turn flag
  is still set (`ComputerMoveKeepsAndroidMessage`).
- A position off the online board is rejected by the index error that
  `makeMove`'s `try` catches. That error comes after the status and turn checks
  and before the occupied check.
- The computer's one-second timer is never cancelled, and starting a new game
  does not stop it. A timer left over from an earlier click can therefore fire
  in a finished game. The computer then moves into that game, and the result is
  counted a second time (`StaleComputerMoveCountsAgain`,
  `StaleTimerCountsHumanWinTwice`).
- Nothing forbids a player from joining their own game. The lemmas about two
  players therefore require `DistinctPlayers`.

## Model

All source paths are relative to the repository root.

| member | source | states |
|---|---|---|
| TicTacToe.EmptyBoard | app/src/main/java/com/svape/masterunalapp/data/TicTacToeGame.kt:20 | A new board has 9 cells, all open. |
| TicTacToe.Winner | app/src/main/java/com/svape/masterunalapp/data/TicTacToeGame.kt:101-150 | The result is 0..3. 2 only with a line of 'X' and 3 only with a line of 'O'. Some line exists iff the result is 2 or 3. 0 iff there is no line and an open cell; 1 iff there is no line and no open cell. When only one mark has a line, the result names that mark. |
| TicTacToe.FirstCompleting | app/src/main/java/com/svape/masterunalapp/data/TicTacToeGame.kt:73-99 | Either -1 and no open cell gives the target when the mark is written there, or the lowest open cell that does. |
| TicTacToe.ComputerMoveAllowed | app/src/main/java/com/svape/masterunalapp/data/TicTacToeGame.kt:47-63 | A move is allowed only on an open cell in range. Harder and Expert must take a win when one exists, and the move then wins. Expert, with no win, must block, and the blocked cell is one where 'X' would win. |
| TicTacToe.ComputerMoveExists | app/src/main/java/com/svape/masterunalapp/data/TicTacToeGame.kt:47-71 | On any board with an open cell, every level has an allowed move. |
| TicTacToe.ExpertPrefersWinning | app/src/main/java/com/svape/masterunalapp/data/TicTacToeGame.kt:54-61 | On O,O,_,X,X,… the only move Expert may make is 2: its win comes before blocking the human at 5. |
| TicTacToe.ExpertBlocks | app/src/main/java/com/svape/masterunalapp/data/TicTacToeGame.kt:87-99 | On X,X,_,… with no win for 'O', the only move Expert may make is the block at 2. |
| TicTacToe.BlockAtTwo | app/src/main/java/com/svape/masterunalapp/data/TicTacToeGame.kt:87-99 | When the top row is X,X and cell 2 is open, the first blocking cell is 2. |
| TicTacToe.HarderDoesNotBlock | app/src/main/java/com/svape/masterunalapp/data/TicTacToeGame.kt:50-53 | On X,X,_,… Harder may play 5 even though the blocking move is 2. |
| TicTacToe.NoWinForComputer | app/src/main/java/com/svape/masterunalapp/data/TicTacToeGame.kt:73-85 | A board with no 'O' has no winning move for the computer. |
| TicTacToe.MoveCompletesOnlyOwnLines | app/src/main/java/com/svape/masterunalapp/data/TicTacToeGame.kt:101-141 | Writing one mark on an open cell completes no line of another mark. |
| TicTacToe.MoveKeepsLines | app/src/main/java/com/svape/masterunalapp/data/TicTacToeGame.kt:101-141 | Writing into an open cell keeps every line already on the board. |
| TicTacToe.MoverCannotLoseByMoving | app/src/main/java/com/svape/masterunalapp/data/TicTacToeGame.kt:101-150 | From a game that goes on, a human move never yields 3 and a computer move never yields 2. |
| TicTacToe.TicTacToeGame.constructor | app/src/main/java/com/svape/masterunalapp/data/TicTacToeGame.kt:18-20 | A new engine has an open board and level Expert. |
| TicTacToe.TicTacToeGame.ClearBoard | app/src/main/java/com/svape/masterunalapp/data/TicTacToeGame.kt:23-27 | Every cell becomes open. |
| TicTacToe.TicTacToeGame.SetMove | app/src/main/java/com/svape/masterunalapp/data/TicTacToeGame.kt:29-36 | Succeeds iff the location is 0..8 and open. On success only that cell changes, to the player's mark; on failure nothing changes. |
| TicTacToe.TicTacToeGame.GetDifficultyLevel | app/src/main/java/com/svape/masterunalapp/data/TicTacToeGame.kt:39-41 | Returns the current level. |
| TicTacToe.TicTacToeGame.SetDifficultyLevel | app/src/main/java/com/svape/masterunalapp/data/TicTacToeGame.kt:43-45 | The level becomes the given one. |
| TicTacToe.TicTacToeGame.CheckForWinner | app/src/main/java/com/svape/masterunalapp/data/TicTacToeGame.kt:101-150 | The loops over rows, columns, diagonals and open cells return exactly `Winner` of the board. |
| TicTacToe.TicTacToeGame.GetBoardOccupant | app/src/main/java/com/svape/masterunalapp/data/TicTacToeGame.kt:152-158 | The stored cell for 0..8, an open spot for any other location. |
| TicTacToe.TicTacToeGame.GetRandomMove | app/src/main/java/com/svape/masterunalapp/data/TicTacToeGame.kt:65-71 | Returns an open cell in 0..8. |
| TicTacToe.TicTacToeGame.FindCompletingMove | app/src/main/java/com/svape/masterunalapp/data/TicTacToeGame.kt:73-99 | The write-check-restore loop leaves the board as it was and returns `FirstCompleting` of it. |
| TicTacToe.TicTacToeGame.GetWinningMove | app/src/main/java/com/svape/masterunalapp/data/TicTacToeGame.kt:73-85 | The board is unchanged. The result is the first open cell where 'O' wins, or -1. |
| TicTacToe.TicTacToeGame.GetBlockingMove | app/src/main/java/com/svape/masterunalapp/data/TicTacToeGame.kt:87-99 | The board is unchanged. The result is the first open cell where 'X' would win, or -1. |
| TicTacToe.TicTacToeGame.GetComputerMove | app/src/main/java/com/svape/masterunalapp/data/TicTacToeGame.kt:47-63 | The board is unchanged. The move is open and in range; Harder and Expert take a win when there is one; Expert otherwise blocks when it can. |
| TicTacToeSession.DefaultUiState | app/src/main/java/com/svape/masterunalapp/ui/viewmodel/TicTacToeViewModel.kt:16-29 | The default screen: an open board, no game over, the human to move, Expert, sound on, all counters 0. |
| TicTacToeSession.DifficultyDisplayName | app/src/main/java/com/svape/masterunalapp/ui/viewmodel/TicTacToeViewModel.kt:319-325 | The names "Fácil", "Difícil" and "Experto" for Easy, Harder and Expert. |
| TicTacToeSession.DisplayNamesDistinct | app/src/main/java/com/svape/masterunalapp/ui/viewmodel/TicTacToeViewModel.kt:319-325 | Different levels have different names. |
| TicTacToeSession.OutcomeMessage | app/src/main/java/com/svape/masterunalapp/ui/viewmodel/TicTacToeViewModel.kt:253-265 | The message for each check result. When the game goes on, the message depends on whose turn it is. |
| TicTacToeSession.AfterMove | app/src/main/java/com/svape/masterunalapp/ui/viewmodel/TicTacToeViewModel.kt:249-288 | The screen shows the engine's board. Game over iff the check is non-zero. Exactly the counter of the outcome goes up by one, so the total rises by one iff the game ended. No other field changes. |
| TicTacToeSession.AfterHumanMove | app/src/main/java/com/svape/masterunalapp/ui/viewmodel/TicTacToeViewModel.kt:209-219 | After an accepted click the game is either over with `AfterMove`'s screen, or it is the computer's turn with "Turno de Android..." and unchanged counters. |
| TicTacToeSession.Flip | app/src/main/java/com/svape/masterunalapp/ui/viewmodel/TicTacToeViewModel.kt:293-297 | 'X' becomes 'O'; anything else becomes 'X'. |
| TicTacToeSession.NewGameState | app/src/main/java/com/svape/masterunalapp/ui/viewmodel/TicTacToeViewModel.kt:290-317 | A new game shows an open board and is not over. It is the computer's turn iff the computer starts, with the message chosen accordingly. Counters, level and sound are kept. |
| TicTacToeSession.ClickIgnored | app/src/main/java/com/svape/masterunalapp/ui/viewmodel/TicTacToeViewModel.kt:205-206 | The guard of `handleCellClick`: a click in a finished game or during the computer's turn is always ignored, and an accepted click is on an open cell. |
| TicTacToeSession.StaleComputerMoveCountsAgain | app/src/main/java/com/svape/masterunalapp/ui/viewmodel/TicTacToeViewModel.kt:223-247 | The computer's move can land in a game that has already ended, because the timer is never cancelled. The board still holds its line or is still full, the game stays over, and the counter total rises by one more. |
| TicTacToeSession.StaleTimerCountsHumanWinTwice | app/src/main/java/com/svape/masterunalapp/ui/viewmodel/TicTacToeViewModel.kt:223-288 | An instance: the human wins with the top row, taking `humanWins` from 1 to 2, and a pending computer move into that finished game takes it to 3. |
| TicTacToeSession.StarterOfGame | app/src/main/java/com/svape/masterunalapp/ui/viewmodel/TicTacToeViewModel.kt:290-297 | The starter of the n-th game is always 'X' or 'O'. |
| TicTacToeSession.ComputerMoveKeepsAndroidMessage | app/src/main/java/com/svape/masterunalapp/ui/viewmodel/TicTacToeViewModel.kt:237-265 | After the computer's move in a game that goes on, the turn flag is off but the message is still "Turno de Android...". |
| TicTacToeSession.StartersAlternate | app/src/main/java/com/svape/masterunalapp/ui/viewmodel/TicTacToeViewModel.kt:290-297 | `goFirst` starts as 'X' and flips before each game, so odd-numbered games (the first included) are opened by the computer and even-numbered ones by the human. |
| TicTacToeSession.TicTacToeViewModel.constructor | app/src/main/java/com/svape/masterunalapp/ui/viewmodel/TicTacToeViewModel.kt:64-110 | With no saved state a new game starts at once. The computer opens it and its move is scheduled. |
| TicTacToeSession.TicTacToeViewModel.OnEvent | app/src/main/java/com/svape/masterunalapp/ui/viewmodel/TicTacToeViewModel.kt:154-200 | For each of the 11 events: the new board, level, starter and screen. The session invariant is kept. |
| TicTacToeSession.TicTacToeViewModel.HandleCellClick | app/src/main/java/com/svape/masterunalapp/ui/viewmodel/TicTacToeViewModel.kt:202-221 | A click is ignored, with nothing changed, when the game is over, the computer is to move or the cell is taken. Otherwise 'X' goes in that cell only and the screen becomes `AfterHumanMove`. |
| TicTacToeSession.TicTacToeViewModel.ScheduleComputerMove | app/src/main/java/com/svape/masterunalapp/ui/viewmodel/TicTacToeViewModel.kt:223-235 | It becomes the computer's turn, with "Turno de Android...". |
| TicTacToeSession.TicTacToeViewModel.HandleComputerMove | app/src/main/java/com/svape/masterunalapp/ui/viewmodel/TicTacToeViewModel.kt:237-247 | An allowed move for the current level is written, the screen is `AfterMove`, and it is no longer the computer's turn. |
| TicTacToeSession.TicTacToeViewModel.UpdateUiAfterMove | app/src/main/java/com/svape/masterunalapp/ui/viewmodel/TicTacToeViewModel.kt:249-288 | The screen becomes `AfterMove` of the engine's board, copied cell by cell, and is back in sync with the engine. |
| TicTacToeSession.TicTacToeViewModel.StartNewGame | app/src/main/java/com/svape/masterunalapp/ui/viewmodel/TicTacToeViewModel.kt:290-317 | The board is cleared, the starter flips, and the screen is `NewGameState` for the new starter. |
| OnlineGames.EmptyBoard | app/src/main/java/com/svape/masterunalapp/data/model/OnlineGame.kt:8 | A new document's board is 9 blank cells. |
| OnlineGames.WinPattern | app/src/main/java/com/svape/masterunalapp/data/repository/FirebaseGameRepository.kt:172-176 | The 8 patterns are cells of the board. |
| OnlineGames.CheckWinnerFrom | app/src/main/java/com/svape/masterunalapp/data/repository/FirebaseGameRepository.kt:178-185 | None iff no later pattern is complete. Otherwise the non-blank symbol of the first complete pattern. |
| OnlineGames.ToLocal | app/src/main/java/com/svape/masterunalapp/data/repository/FirebaseGameRepository.kt:171-186 | Translates an online board to a local one: "X" becomes 'X' and "O" becomes 'O'. |
| OnlineGames.PatternAgrees | app/src/main/java/com/svape/masterunalapp/data/repository/FirebaseGameRepository.kt:172-181 | Each pattern is complete with "X" (or "O") online iff the same three cells hold 'X' (or 'O') locally. |
| OnlineGames.LinesAgreeFor | app/src/main/java/com/svape/masterunalapp/data/repository/FirebaseGameRepository.kt:171-186 | For one symbol, some complete pattern online iff some line of the matching mark locally. |
| OnlineGames.LinesAgree | app/src/main/java/com/svape/masterunalapp/data/repository/FirebaseGameRepository.kt:171-186 | A complete pattern of "X" (or "O") online iff a line of 'X' (or 'O') in the local rule. |
| OnlineGames.CheckWinnerMatchesLocalRule | app/src/main/java/com/svape/masterunalapp/data/repository/FirebaseGameRepository.kt:171-186 | With at most one symbol lined up, `checkWinner` gives "X" iff the local check gives 2, "O" iff it gives 3, and none iff it gives 0 or 1. |
| OnlineGames.NewGame | app/src/main/java/com/svape/masterunalapp/data/repository/FirebaseGameRepository.kt:20-32 | The creator is player 1 with "X", created the game and holds the turn. There is no player 2. The board is blank, the game is WAITING with no winner. |
| OnlineGames.CheckWinner | app/src/main/java/com/svape/masterunalapp/data/repository/FirebaseGameRepository.kt:171-186 | None iff no pattern is complete. Otherwise a non-blank symbol that fills some pattern. |
| OnlineGames.ErrorMessage | app/src/main/java/com/svape/masterunalapp/data/repository/FirebaseGameRepository.kt:45-52 | The Spanish message of each failure, including "Juego no encontrado", "No es tu turno" and "Posición ocupada". The off-board error's message is a stand-in. |
| OnlineGames.IsPlayer1 | app/src/main/java/com/svape/masterunalapp/data/repository/FirebaseGameRepository.kt:132-135 | A missing player 1 matches nobody, and player 2 of a game with two distinct players is never player 1. |
| OnlineGames.NextTurn | app/src/main/java/com/svape/masterunalapp/data/repository/FirebaseGameRepository.kt:135-139 | The turn goes to the other player, or "" when that player is missing. In a game with two distinct players, a player's move hands the turn to the other one, never back to the mover. |
| OnlineGames.JoinOutcome | app/src/main/java/com/svape/masterunalapp/data/repository/FirebaseGameRepository.kt:43-64 | Fails iff the game is missing, not WAITING or full, with that error in that order. Otherwise only player 2 ("O") and the status PLAYING change. |
| OnlineGames.MoverSymbol | app/src/main/java/com/svape/masterunalapp/data/repository/FirebaseGameRepository.kt:132 | "X" iff the mover is player 1, otherwise "O". |
| OnlineGames.MoveOutcome | app/src/main/java/com/svape/masterunalapp/data/repository/FirebaseGameRepository.kt:114-153 | Fails iff the game is not PLAYING, the turn is someone else's, the position is off the board or the cell is taken, in that order of checks. Each check has its own error: `GameNotPlaying`, `NotYourTurn`, `PositionOutOfRange`, `PositionOccupied` ("Posición ocupada"). Otherwise only the cell (the mover's symbol), the turn (the other player), the winner (`checkWinner`) and the status change. The status is FINISHED iff there is a winner or no blank cell. |
| OnlineGames.RepeatedMoveRejected | app/src/main/java/com/svape/masterunalapp/data/repository/FirebaseGameRepository.kt:119-125 | Between two distinct players, repeating a successful move on its result fails, with "not your turn" while the game goes on. |
| OnlineGames.MoverIsOnlyNewWinner | app/src/main/java/com/svape/masterunalapp/data/repository/FirebaseGameRepository.kt:141-153 | From a board with no complete pattern, the winner a move records is the mover's symbol. |
| GameRepository.Lookup | app/src/main/java/com/svape/masterunalapp/data/repository/FirebaseGameRepository.kt:43-45 | Reading a game id gives its document, or none iff the id is not stored. |
| GameRepository.JoinKeepsValid | app/src/main/java/com/svape/masterunalapp/data/repository/FirebaseGameRepository.kt:55-66 | A successful join keeps the stored-document invariant. |
| GameRepository.MoveKeepsValid | app/src/main/java/com/svape/masterunalapp/data/repository/FirebaseGameRepository.kt:131-155 | A successful move keeps the stored-document invariant: well-formed board, symbols, whose turn, and the facts of each status. |
| GameRepository.StoreKeepsValid | app/src/main/java/com/svape/masterunalapp/data/repository/FirebaseGameRepository.kt:155 | Writing a valid document under its id keeps the whole store valid. |
| GameRepository.StoredMove | app/src/main/java/com/svape/masterunalapp/data/repository/FirebaseGameRepository.kt:114-129 | A missing game fails with "Juego no encontrado". Otherwise the result is `MoveOutcome` of the stored document. |
| GameRepository.StoredWinnerIsMover | app/src/main/java/com/svape/masterunalapp/data/repository/FirebaseGameRepository.kt:141-153 | In a stored game the winner a move records is always the mover's symbol. |
| GameRepository.PrependSorted | app/src/main/java/com/svape/masterunalapp/data/repository/FirebaseGameRepository.kt:84 | A game no newer than the head of a newest-first list keeps the list newest-first when put in front. |
| GameRepository.InsertNewestFirst | app/src/main/java/com/svape/masterunalapp/data/repository/FirebaseGameRepository.kt:84 | Inserting into a newest-first list keeps it newest-first and adds exactly that game. |
| GameRepository.InsertBound | app/src/main/java/com/svape/masterunalapp/data/repository/FirebaseGameRepository.kt:84 | Inserting a game no newer than a list's head into its tail leaves nothing newer than that head. |
| GameRepository.SortNewestFirst | app/src/main/java/com/svape/masterunalapp/data/repository/FirebaseGameRepository.kt:84 | `sortedByDescending { createdAt }`: newest first and a permutation of the input. |
| GameRepository.SortKeepsMembers | app/src/main/java/com/svape/masterunalapp/data/repository/FirebaseGameRepository.kt:84 | Sorting neither adds nor drops a game. |
| GameRepository.WaitingStep | app/src/main/java/com/svape/masterunalapp/data/repository/FirebaseGameRepository.kt:79-83 | Visiting one more document adds its id to the waiting ids seen so far exactly when it is WAITING. |
| GameRepository.FreshKeyExists | app/src/main/java/com/svape/masterunalapp/data/repository/FirebaseGameRepository.kt:18 | Some key is not yet used, so a new id can always be chosen. |
| GameRepository.FirebaseGameRepository.constructor | app/src/main/java/com/svape/masterunalapp/data/repository/FirebaseGameRepository.kt:13-14 | The store starts empty and valid. |
| GameRepository.FirebaseGameRepository.CreateGame | app/src/main/java/com/svape/masterunalapp/data/repository/FirebaseGameRepository.kt:16-39 | Stores `NewGame` under a fresh id, changes nothing else and keeps the store valid. |
| GameRepository.FirebaseGameRepository.JoinGame | app/src/main/java/com/svape/masterunalapp/data/repository/FirebaseGameRepository.kt:41-71 | Returns `JoinOutcome` of the stored document. On success only that document is replaced, and the result carries the joined id; on failure nothing changes. |
| GameRepository.FirebaseGameRepository.MakeMove | app/src/main/java/com/svape/masterunalapp/data/repository/FirebaseGameRepository.kt:112-160 | Succeeds with true iff `StoredMove` does. Then only that document is replaced by the moved one; on failure the store is unchanged and the error is `StoredMove`'s. |
| GameRepository.FirebaseGameRepository.LeaveGame | app/src/main/java/com/svape/masterunalapp/data/repository/FirebaseGameRepository.kt:162-169 | The document is removed, nothing else changes, and the result is success. |
| GameRepository.FirebaseGameRepository.GetAvailableGames | app/src/main/java/com/svape/masterunalapp/data/repository/FirebaseGameRepository.kt:73-94 | Exactly the stored WAITING documents, each once, newest first. |
| OnlineSession.DefaultOnlineUiState | app/src/main/java/com/svape/masterunalapp/ui/viewmodel/OnlineGameViewModel.kt:13-21 | The default screen: no game, "Esperando...", no dialog, not over. |
| OnlineSession.OpponentName | app/src/main/java/com/svape/masterunalapp/ui/viewmodel/OnlineGameViewModel.kt:131-135 | Player 1 sees player 2's name, or "Esperando..." if there is none. Anyone else sees player 1's name, or "Jugador 1". |
| OnlineSession.UpdateUiState | app/src/main/java/com/svape/masterunalapp/ui/viewmodel/OnlineGameViewModel.kt:127-159 | The symbol is "X" iff the player is player 1. It is the player's turn iff the turn holds their id. The message: waiting; won, draw or lost from the recorded winner; or whose turn it is. Over iff FINISHED; the waiting dialog is shown iff WAITING. |
| OnlineSession.SnapshotSound | app/src/main/java/com/svape/masterunalapp/ui/viewmodel/OnlineGameViewModel.kt:110-121 | A sound plays iff an earlier snapshot exists and the board changed. It is the "human" sound iff the turn is now someone else's. |
| OnlineSession.ScreenSymbolIsWritten | app/src/main/java/com/svape/masterunalapp/ui/viewmodel/OnlineGameViewModel.kt:128-129 | The symbol the client shows is the symbol `makeMove` writes for that player. |
| OnlineSession.MoveSoundsAndTurn | app/src/main/java/com/svape/masterunalapp/ui/viewmodel/OnlineGameViewModel.kt:112-119 | After a move between distinct players the mover hears the "human" sound and the opponent the "computer" sound. While the game goes on, the opponent sees "¡Tu turno!" and the mover "Turno de …". |
| OnlineSession.WinnerAndLoserMessages | app/src/main/java/com/svape/masterunalapp/ui/viewmodel/OnlineGameViewModel.kt:137-145 | In a stored game between distinct players, a winning move shows "¡Ganaste!" to the mover and "Perdiste" to the opponent. |
| OnlineSession.OnlineGameViewModel.constructor | app/src/main/java/com/svape/masterunalapp/ui/viewmodel/OnlineGameViewModel.kt:23-46 | No current game, the default screen, no error and nothing loading. |
| OnlineSession.OnlineGameViewModel.LoadAvailableGames | app/src/main/java/com/svape/masterunalapp/ui/viewmodel/OnlineGameViewModel.kt:52-58 | The listed games are exactly the repository's WAITING documents, each listed once (the length is the number of waiting ids), newest first. Nothing else changes. |
| OnlineSession.OnlineGameViewModel.CreateGame | app/src/main/java/com/svape/masterunalapp/ui/viewmodel/OnlineGameViewModel.kt:60-83 | The new game, stored under a fresh id, becomes the current one. A fresh observation starts and the waiting dialog shows "Esperando oponente...". |
| OnlineSession.OnlineGameViewModel.JoinGame | app/src/main/java/com/svape/masterunalapp/ui/viewmodel/OnlineGameViewModel.kt:85-104 | On success the joined game becomes current and a fresh observation starts. On failure the repository's message is shown and the current game is kept. |
| OnlineSession.OnlineGameViewModel.OnGameSnapshot | app/src/main/java/com/svape/masterunalapp/ui/viewmodel/OnlineGameViewModel.kt:106-125 | A present document sets the screen to `UpdateUiState`, becomes the previous board and plays `SnapshotSound`. An absent one changes nothing. |
| OnlineSession.OnlineGameViewModel.MakeMove | app/src/main/java/com/svape/masterunalapp/ui/viewmodel/OnlineGameViewModel.kt:161-182 | Without a current game nothing happens. Otherwise the store changes as `StoredMove` says, and a failure's message is shown. |
| OnlineSession.OnlineGameViewModel.LeaveGame | app/src/main/java/com/svape/masterunalapp/ui/viewmodel/OnlineGameViewModel.kt:188-196 | Without a current game nothing happens. Otherwise the document is deleted, there is no current game and the screen is reset. |
| OnlineSession.OnlineGameViewModel.ClearError | app/src/main/java/com/svape/masterunalapp/ui/viewmodel/OnlineGameViewModel.kt:198-200 | The error is cleared and nothing else changes. |
| DataCatalog.FoldChar | app/src/main/java/com/svape/masterunalapp/ui/viewmodel/DataCatalogViewModel.kt:116-122 | Á É Í Ó Ú Ñ become A E I O U N; any other character stays; the result is never accented. |
| DataCatalog.FoldAccents | app/src/main/java/com/svape/masterunalapp/ui/viewmodel/DataCatalogViewModel.kt:121-123 | Same length, every character folded, no accented letter left. |
| DataCatalog.NormalizeText | app/src/main/java/com/svape/masterunalapp/ui/viewmodel/DataCatalogViewModel.kt:113-124 | The upper-cased text folded character by character: same length, no Á É Í Ó Ú Ñ. |
| DataCatalog.FoldAccentsIdempotent | app/src/main/java/com/svape/masterunalapp/ui/viewmodel/DataCatalogViewModel.kt:113-124 | Folding twice is folding once. |
| DataCatalog.FoldAccentsKeepsPlain | app/src/main/java/com/svape/masterunalapp/ui/viewmodel/DataCatalogViewModel.kt:116-123 | Text without those letters is unchanged. |
| DataCatalog.NatToDecimal | app/src/main/java/com/svape/masterunalapp/ui/viewmodel/DataCatalogViewModel.kt:73 | At least one digit, all ASCII digits, no leading zero. |
| DataCatalog.NatToDecimalValue | app/src/main/java/com/svape/masterunalapp/ui/viewmodel/DataCatalogViewModel.kt:73 | Reading the digits back gives the number. |
| DataCatalog.WhereCondition | app/src/main/java/com/svape/masterunalapp/ui/viewmodel/DataCatalogViewModel.kt:70 | `starts_with(fecha_hecho, '`, then the year unchanged, then `')`. |
| DataCatalog.WhereParam | app/src/main/java/com/svape/masterunalapp/ui/viewmodel/DataCatalogViewModel.kt:70 | The `$where=` key followed by the year condition. |
| DataCatalog.LimitParam | app/src/main/java/com/svape/masterunalapp/ui/viewmodel/DataCatalogViewModel.kt:73 | The `$limit=` key followed by the limit in decimal. |
| DataCatalog.DefaultLimitParam | app/src/main/java/com/svape/masterunalapp/ui/viewmodel/DataCatalogViewModel.kt:33 | With the default limit of 100 the parameter is `$limit=100`. |
| DataCatalog.IntToDecimal | app/src/main/java/com/svape/masterunalapp/ui/viewmodel/DataCatalogViewModel.kt:73 | The number's digits, preceded by "-" when it is negative. |
| DataCatalog.QueryParams | app/src/main/java/com/svape/masterunalapp/ui/viewmodel/DataCatalogViewModel.kt:57-75 | 2 to 5 parameters, always ending with `$limit` and then `$order`. |
| DataCatalog.JoinWith | app/src/main/java/com/svape/masterunalapp/ui/viewmodel/DataCatalogViewModel.kt:79 | An empty list gives ""; otherwise the result starts with the first part, and one part joins to itself. |
| DataCatalog.JoinWithSnoc | app/src/main/java/com/svape/masterunalapp/ui/viewmodel/DataCatalogViewModel.kt:79 | Joining a list with one more part appends the separator and that part. |
| DataCatalog.QueryParamTags | app/src/main/java/com/svape/masterunalapp/ui/viewmodel/DataCatalogViewModel.kt:57-75 | The order is departamento, municipio, `$where`, `$limit`, `$order`. Each optional parameter sits at its place iff it is present. |
| DataCatalog.DepartamentoPresence | app/src/main/java/com/svape/masterunalapp/ui/viewmodel/DataCatalogViewModel.kt:59-62 | A `departamento=` parameter is present iff the department is non-empty. It is first and carries the normalised name. |
| DataCatalog.MunicipioPresence | app/src/main/java/com/svape/masterunalapp/ui/viewmodel/DataCatalogViewModel.kt:64-67 | A `municipio=` parameter is present iff the municipality is non-empty, with the normalised name. |
| DataCatalog.YearFilterPresence | app/src/main/java/com/svape/masterunalapp/ui/viewmodel/DataCatalogViewModel.kt:69-71 | The `$where` year filter is present iff the year is exactly four digits. |
| DataCatalog.RequestUrl | app/src/main/java/com/svape/masterunalapp/ui/viewmodel/DataCatalogViewModel.kt:77-82 | The URL always starts with the base URL followed by "?". |
| DataCatalog.JoinEndsWithLast | app/src/main/java/com/svape/masterunalapp/ui/viewmodel/DataCatalogViewModel.kt:79 | A joined list ends with its last part. |
| DataCatalog.UrlEndsWithOrder | app/src/main/java/com/svape/masterunalapp/ui/viewmodel/DataCatalogViewModel.kt:73-82 | The URL always ends with `$order=fecha_hecho DESC`. |
| DataCatalog.BuildParams | app/src/main/java/com/svape/masterunalapp/ui/viewmodel/DataCatalogViewModel.kt:57-75 | The list built with successive `add` calls is exactly `QueryParams`: the present filters in order, then `$limit` and `$order`. |
| DataCatalog.BuildUrl | app/src/main/java/com/svape/masterunalapp/ui/viewmodel/DataCatalogViewModel.kt:55-82 | The base URL with the parameter list joined after "?" is exactly `RequestUrl`. |
| Companies.Name | app/src/main/java/com/svape/masterunalapp/data/model/Company.kt:13-16 | The stored name of each classification: its constant's name, in capitals and underscores. |
| Companies.DisplayName | app/src/main/java/com/svape/masterunalapp/data/model/Company.kt:13-16 | The label of each classification, ending in a lower-case letter, so no label is a stored name. |
| Companies.Values | app/src/main/java/com/svape/masterunalapp/data/model/Company.kt:13-16 | The three classifications in declaration order. |
| Companies.FindByName | app/src/main/java/com/svape/masterunalapp/data/model/Company.kt:20 | Finds an element with exactly that name, or none iff no element has it. |
| Companies.FromString | app/src/main/java/com/svape/masterunalapp/data/model/Company.kt:19-21 | Total. When some classification has that name, the result does; otherwise CONSULTORIA. |
| Companies.NamesDistinct | app/src/main/java/com/svape/masterunalapp/data/model/Company.kt:13-16 | Different classifications have different names. |
| Companies.FromStringRoundTrip | app/src/main/java/com/svape/masterunalapp/data/model/Company.kt:13-21 | Decoding a classification's name gives it back. |
| Companies.DisplayNamesDecodeToFallback | app/src/main/java/com/svape/masterunalapp/data/model/Company.kt:13-21 | A display label is not a name, so it decodes to CONSULTORIA. |

## Left out

- **Firebase transport.** Failures of the database calls are left out: network errors, a failed `push().key` in `createGame`, and the exceptions the `try` blocks would turn into failures. Each repository operation succeeds or fails only for the reasons its validation names.
- **Concurrency.** Two clients can read and then write the same document at once, and the later write overwrites the earlier one. This race is not modelled, because every operation is one atomic step.
- **Listeners.** `getAvailableGames` and `observeGame` are live listeners. Here each delivery is one call: `LoadAvailableGames`, `OnGameSnapshot`. The observer of an earlier game is never cancelled in the source; only the latest observation is modelled.
- **Coroutines and timing.** The one-second delay before the computer moves is left out, as are coroutine scheduling, `isLoading`'s value while a call runs, and Android logging.
- **Sounds.** The sound manager and its on/off switch are left out. `OnGameSnapshot` returns which sound would play; the local session does not model sounds.
- **Persistence.** `SharedPreferences` and `SavedStateHandle` are left out, that is `loadPreferences`, `savePreferences`, `saveInstanceState` and the restoring branch of `restoreInstanceState`. The engine's `setBoardState` and `getBoardState` are not part of this model.
- **Unmodelled source code.** The HTTP request, the JSON parsing and `fetchHechosDelictivos`'s state flow in `DataCatalogViewModel` are left out.
- **Upper-casing.** `uppercase()` depends on the platform's locale, so it is a parameter of `NormalizeText`.
- **Random choice.** The random generator of `getRandomMove` is modelled as a choice of any open cell.
- **Clock and ids.** `System.currentTimeMillis()` and the random player id are parameters; the id chosen by `push()` is any unused key.
- **Integer width.** Kotlin `Int` counters and `Long` timestamps are unbounded integers here. Overflow after 2^31 wins is not modelled.
- **Presentation.** The Activities, Compose screens, `DatabaseHelper.kt` and `CompanyViewModel.kt` are left out.
- TicTacToe.TicTacToeGame.GetRandomMove: requires an open cell. On a full board the source's loop never ends, so no result exists to model.
- TicTacToe.TicTacToeGame.GetComputerMove: requires an open cell, for the same reason.
- TicTacToeSession.TicTacToeViewModel.HandleCellClick: requires the position to be 0..8. The source indexes the screen's board without a check and would throw.
- TicTacToeSession.TicTacToeViewModel.OnEvent: requires an in-range position for a click and an open cell for a computer move, for the same two reasons.
- TicTacToeSession.TicTacToeViewModel.HandleComputerMove: requires an open cell. On a full board the engine's random choice loops forever, so no result exists to model. Any other state, a finished game included, is allowed.
- OnlineGames.MoveOutcome: an off-board position fails with `PositionOutOfRange`. Its message ("Index out of range") stands in for the platform's index-exception text.
- GameRepository.FirebaseGameRepository.CreateGame: never fails, because transport failures are left out.
