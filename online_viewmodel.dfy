/**
 * The client side of an online match: how one player's screen is derived
 * from the shared match document (`updateUiState`), which sound a new
 * snapshot triggers, and the view model that forwards the player's actions to
 * the repository. Snapshots from the store arrive as calls to
 * `OnGameSnapshot`; each coroutine body runs as one step.
 */
module OnlineSession {
  import opened Types
  import opened OnlineGames
  import opened GameRepository

  const MSG_WAITING: string := "Esperando..."
  const MSG_WAITING_OPPONENT: string := "Esperando oponente..."
  const MSG_WON: string := "¡Ganaste! 🎉"
  const MSG_DRAW: string := "¡Empate!"
  const MSG_LOST: string := "Perdiste 😢"
  const MSG_YOUR_TURN: string := "¡Tu turno!"
  const TURN_OF_PREFIX: string := "Turno de "
  const PLAYER1_FALLBACK: string := "Jugador 1"

  /** What one player's screen shows about the match it follows. */
  datatype OnlineGameUiState = OnlineGameUiState(
    currentGame: Option<OnlineGame>,
    isMyTurn: bool,
    mySymbol: string,
    opponentName: string,
    gameMessage: string,
    isGameOver: bool,
    showWaitingDialog: bool)

  /** The screen before any match: no game and the message "Esperando...". */
  function DefaultOnlineUiState(): (s: OnlineGameUiState)
    ensures s.currentGame.None? && !s.isMyTurn && !s.isGameOver && !s.showWaitingDialog
    ensures s.mySymbol == "" && s.opponentName == "" && s.gameMessage == MSG_WAITING
  {
    OnlineGameUiState(None, false, "", "", MSG_WAITING, false, false)
  }

  /**
   * The name shown for the other side: player 1 sees player 2's name, or
   * "Esperando..." while nobody has joined; anyone else sees player 1's
   * name, or "Jugador 1" when the document has none.
   */
  function OpponentName(game: OnlineGame, playerId: string): (name: string)
    ensures IsPlayer1(game, playerId) && game.player2.Some? ==> name == game.player2.value.playerName
    ensures IsPlayer1(game, playerId) && game.player2.None? ==> name == MSG_WAITING
    ensures !IsPlayer1(game, playerId) && game.player1.Some? ==> name == game.player1.value.playerName
    ensures !IsPlayer1(game, playerId) && game.player1.None? ==> name == PLAYER1_FALLBACK
  {
    if IsPlayer1(game, playerId) then
      (if game.player2.Some? then game.player2.value.playerName else MSG_WAITING)
    else
      (if game.player1.Some? then game.player1.value.playerName else PLAYER1_FALLBACK)
  }

  /**
   * `updateUiState`: the screen a snapshot produces. The player's symbol is
   * "X" exactly when it is player 1, it is their turn exactly when the
   * document's turn holds their id, and the message follows the status: a
   * waiting game says so; a finished one says won, draw or lost from the
   * recorded winner; a game in play says whose turn it is.
   */
  function UpdateUiState(game: OnlineGame, playerId: string): (s: OnlineGameUiState)
    ensures s.currentGame == Some(game)
    ensures s.mySymbol == SYMBOL_X <==> IsPlayer1(game, playerId)
    ensures s.mySymbol == SYMBOL_X || s.mySymbol == SYMBOL_O
    ensures s.isMyTurn <==> game.currentTurn == playerId
    ensures s.opponentName == OpponentName(game, playerId)
    ensures s.isGameOver <==> game.status == FINISHED
    ensures s.showWaitingDialog <==> game.status == WAITING
    ensures game.status == WAITING ==> s.gameMessage == MSG_WAITING_OPPONENT
    ensures game.status == FINISHED && game.winner == Some(s.mySymbol) ==> s.gameMessage == MSG_WON
    ensures game.status == FINISHED && game.winner.None? ==> s.gameMessage == MSG_DRAW
    ensures game.status == FINISHED && game.winner.Some? && game.winner.value != s.mySymbol ==> s.gameMessage == MSG_LOST
    ensures game.status == PLAYING && game.currentTurn == playerId ==> s.gameMessage == MSG_YOUR_TURN
    ensures game.status == PLAYING && game.currentTurn != playerId ==> s.gameMessage == TURN_OF_PREFIX + s.opponentName
  {
    var isPlayer1 := IsPlayer1(game, playerId);
    var mySymbol := if isPlayer1 then SYMBOL_X else SYMBOL_O;
    var isMyTurn := game.currentTurn == playerId;
    var opponentName := OpponentName(game, playerId);
    var gameMessage :=
      if game.status == WAITING then MSG_WAITING_OPPONENT
      else if game.status == FINISHED then
        (if game.winner == Some(mySymbol) then MSG_WON
         else if game.winner.None? then MSG_DRAW
         else MSG_LOST)
      else if isMyTurn then MSG_YOUR_TURN
      else TURN_OF_PREFIX + opponentName;
    OnlineGameUiState(Some(game), isMyTurn, mySymbol, opponentName, gameMessage,
                      game.status == FINISHED, game.status == WAITING)
  }

  /** The sound a snapshot plays. */
  datatype MoveSound = NoSound | HumanMoveSound | ComputerMoveSound

  /**
   * A snapshot plays a sound only when an earlier snapshot of the same
   * observation exists and its board differs. The turn has already passed, so
   * the board changed by this player's own move exactly when the turn is now
   * somebody else's: that plays the "human" sound, the opponent's move the
   * "computer" one.
   */
  function SnapshotSound(previousBoard: Option<seq<string>>, game: OnlineGame, playerId: string): (s: MoveSound)
    ensures s != NoSound <==> previousBoard.Some? && previousBoard.value != game.board
    ensures s == HumanMoveSound <==> s != NoSound && game.currentTurn != playerId
    ensures s == ComputerMoveSound <==> s != NoSound && game.currentTurn == playerId
  {
    if previousBoard.Some? && previousBoard.value != game.board then
      (if game.currentTurn != playerId then HumanMoveSound else ComputerMoveSound)
    else NoSound
  }

  /**
   * The symbol a player's screen shows is the symbol `makeMove` writes for
   * that player, so a successful move puts the screen's own symbol on the
   * chosen cell.
   */
  lemma ScreenSymbolIsWritten(game: OnlineGame, position: int, playerId: string)
    requires |game.board| == 9
    requires MoveOutcome(game, position, playerId).Success?
    ensures MoveOutcome(game, position, playerId).value.board[position] == UpdateUiState(game, playerId).mySymbol
  {
  }

  /**
   * After a successful move between two distinct players, the mover hears the
   * "human" sound and the opponent the "computer" sound, and the opponent's
   * screen says it is their turn unless the game is over.
   */
  lemma MoveSoundsAndTurn(game: OnlineGame, position: int, playerId: string)
    requires |game.board| == 9 && DistinctPlayers(game)
    requires MoveOutcome(game, position, playerId).Success?
    ensures var after := MoveOutcome(game, position, playerId).value;
            var opponent := NextTurn(game, playerId);
            && SnapshotSound(Some(game.board), after, playerId) == HumanMoveSound
            && SnapshotSound(Some(game.board), after, opponent) == ComputerMoveSound
            && (after.status == PLAYING ==> UpdateUiState(after, opponent).gameMessage == MSG_YOUR_TURN)
            && (after.status == PLAYING ==> UpdateUiState(after, playerId).gameMessage == TURN_OF_PREFIX + OpponentName(after, playerId))
  {
    var after := MoveOutcome(game, position, playerId).value;
    assert after.board[position] != game.board[position];
  }

  /**
   * In a stored game with two distinct players, a move that wins shows
   * "¡Ganaste!" on the mover's screen and "Perdiste" on the opponent's.
   */
  lemma WinnerAndLoserMessages(id: string, game: OnlineGame, position: int, playerId: string)
    requires StoredGameValid(id, game) && DistinctPlayers(game)
    requires MoveOutcome(game, position, playerId).Success?
    requires MoveOutcome(game, position, playerId).value.winner.Some?
    ensures var after := MoveOutcome(game, position, playerId).value;
            && UpdateUiState(after, playerId).gameMessage == MSG_WON
            && UpdateUiState(after, NextTurn(game, playerId)).gameMessage == MSG_LOST
  {
    StoredWinnerIsMover(id, game, position, playerId);
    var after := MoveOutcome(game, position, playerId).value;
    assert IsPlayer1(after, playerId) == IsPlayer1(game, playerId);
    assert IsPlayer1(after, NextTurn(game, playerId)) == IsPlayer1(game, NextTurn(game, playerId));
  }

  /** `OnlineGameViewModel`: one player's session against the shared store. */
  class OnlineGameViewModel {
    const repository: FirebaseGameRepository
    /** The random per-installation id, supplied by the caller. */
    const playerId: string
    var availableGames: seq<OnlineGame>
    var currentGameId: Option<string>
    var uiState: OnlineGameUiState
    var isLoading: bool
    var errorMessage: Option<string>
    /** The board of the last snapshot delivered to the current observation. */
    var previousBoard: Option<seq<string>>

    ghost predicate Valid()
      reads this, repository
    {
      repository.Valid()
    }

    constructor (repository: FirebaseGameRepository, playerId: string)
      requires repository.Valid()
      ensures Valid()
      ensures this.repository == repository && this.playerId == playerId
      ensures availableGames == [] && currentGameId.None? && uiState == DefaultOnlineUiState()
      ensures !isLoading && errorMessage.None? && previousBoard.None?
    {
      this.repository := repository;
      this.playerId := playerId;
      availableGames := [];
      currentGameId := None;
      uiState := DefaultOnlineUiState();
      isLoading := false;
      errorMessage := None;
      previousBoard := None;
    }

    /** One delivery of the waiting-games listing: the list shown is the repository's answer. */
    method LoadAvailableGames()
      requires Valid()
      modifies this
      ensures Valid()
      ensures forall g :: g in availableGames <==> g.status == WAITING && g.gameId in repository.games && repository.games[g.gameId] == g
      ensures |availableGames| == |WaitingIds(repository.games)|
      ensures SortedNewestFirst(availableGames)
      ensures currentGameId == old(currentGameId) && uiState == old(uiState) && previousBoard == old(previousBoard)
      ensures isLoading == old(isLoading) && errorMessage == old(errorMessage)
    {
      var games := repository.GetAvailableGames();
      availableGames := games;
    }

    /**
     * `createGame`: the new game becomes the current one, a fresh observation
     * starts, and the screen shows the waiting dialog.
     */
    method CreateGame(playerName: string, createdAt: int)
      requires Valid()
      modifies this, repository
      ensures Valid()
      ensures currentGameId.Some? && currentGameId.value !in old(repository.games)
      ensures repository.games == old(repository.games)[currentGameId.value := NewGame(currentGameId.value, playerName, playerId, createdAt)]
      ensures uiState == old(uiState).(showWaitingDialog := true, gameMessage := MSG_WAITING_OPPONENT)
      ensures previousBoard.None? && errorMessage.None? && !isLoading
      ensures availableGames == old(availableGames)
    {
      isLoading := true;
      errorMessage := None;
      var game := repository.CreateGame(playerName, playerId, createdAt);
      currentGameId := Some(game.gameId);
      previousBoard := None;
      uiState := uiState.(showWaitingDialog := true, gameMessage := MSG_WAITING_OPPONENT);
      isLoading := false;
    }

    /**
     * `joinGame`: on success the joined game becomes the current one and a
     * fresh observation starts; on failure the repository's message is shown
     * and the current game is kept.
     */
    method JoinGame(gameId: string, playerName: string)
      requires Valid()
      modifies this, repository
      ensures Valid()
      ensures var outcome := JoinOutcome(Lookup(old(repository.games), gameId), playerName, playerId);
              outcome.Success? ==> && repository.games == old(repository.games)[gameId := outcome.value]
                                   && currentGameId == Some(gameId) && previousBoard.None? && errorMessage.None?
      ensures var outcome := JoinOutcome(Lookup(old(repository.games), gameId), playerName, playerId);
              outcome.Failure? ==> && repository.games == old(repository.games)
                                   && currentGameId == old(currentGameId) && previousBoard == old(previousBoard)
                                   && errorMessage == Some(ErrorMessage(outcome.error))
      ensures uiState == old(uiState) && !isLoading && availableGames == old(availableGames)
    {
      isLoading := true;
      errorMessage := None;
      var r := repository.JoinGame(gameId, playerName, playerId);
      if r.Success? {
        currentGameId := Some(r.value.gameId);
        previousBoard := None;
      } else {
        errorMessage := Some(ErrorMessage(r.error));
      }
      isLoading := false;
    }

    /**
     * One snapshot of the observed game (None: the document is gone). A
     * present game replaces the screen with `UpdateUiState` and becomes the
     * previous board; the returned sound is what the snapshot plays.
     */
    method OnGameSnapshot(game: Option<OnlineGame>) returns (sound: MoveSound)
      modifies this
      ensures game.None? ==> sound == NoSound && uiState == old(uiState) && previousBoard == old(previousBoard)
      ensures game.Some? ==> && sound == SnapshotSound(old(previousBoard), game.value, playerId)
                             && uiState == UpdateUiState(game.value, playerId)
                             && previousBoard == Some(game.value.board)
      ensures currentGameId == old(currentGameId) && errorMessage == old(errorMessage)
      ensures isLoading == old(isLoading) && availableGames == old(availableGames)
    {
      sound := NoSound;
      if game.Some? {
        var g := game.value;
        if previousBoard.Some? && previousBoard.value != g.board {
          var isMyMove := g.currentTurn != playerId;
          if isMyMove {
            sound := HumanMoveSound;
          } else {
            sound := ComputerMoveSound;
          }
        }
        previousBoard := Some(g.board);
        uiState := UpdateUiState(g, playerId);
      }
    }

    /**
     * `makeMove`: nothing happens without a current game; otherwise the move
     * goes to the repository and a failure's message is shown.
     */
    method MakeMove(position: int)
      requires Valid()
      modifies this, repository
      ensures Valid()
      ensures old(currentGameId).None? ==> repository.games == old(repository.games) && errorMessage == old(errorMessage)
      ensures old(currentGameId).Some? ==>
                var outcome := StoredMove(old(repository.games), old(currentGameId).value, position, playerId);
                && (outcome.Success? ==> repository.games == old(repository.games)[old(currentGameId).value := outcome.value]
                                         && errorMessage.None?)
                && (outcome.Failure? ==> repository.games == old(repository.games)
                                         && errorMessage == Some(ErrorMessage(outcome.error)))
      ensures currentGameId == old(currentGameId) && uiState == old(uiState) && previousBoard == old(previousBoard)
      ensures isLoading == old(isLoading) && availableGames == old(availableGames)
    {
      if currentGameId.None? {
        return;
      }
      var gameId := currentGameId.value;
      errorMessage := None;
      var r := repository.MakeMove(gameId, position, playerId);
      if r.Failure? {
        errorMessage := Some(ErrorMessage(r.error));
      }
    }

    /**
     * `leaveGame`: nothing happens without a current game; otherwise the
     * document is deleted, there is no current game and the screen is reset.
     */
    method LeaveGame()
      requires Valid()
      modifies this, repository
      ensures Valid()
      ensures old(currentGameId).None? ==> repository.games == old(repository.games) && uiState == old(uiState)
      ensures old(currentGameId).Some? ==> repository.games == old(repository.games) - {old(currentGameId).value}
                                           && uiState == DefaultOnlineUiState()
      ensures currentGameId.None?
      ensures errorMessage == old(errorMessage) && previousBoard == old(previousBoard)
      ensures isLoading == old(isLoading) && availableGames == old(availableGames)
    {
      if currentGameId.None? {
        return;
      }
      var _ := repository.LeaveGame(currentGameId.value);
      currentGameId := None;
      uiState := DefaultOnlineUiState();
    }

    /** `clearError`. */
    method ClearError()
      modifies this
      ensures errorMessage.None?
      ensures currentGameId == old(currentGameId) && uiState == old(uiState) && previousBoard == old(previousBoard)
      ensures isLoading == old(isLoading) && availableGames == old(availableGames)
    {
      errorMessage := None;
    }
  }
}
