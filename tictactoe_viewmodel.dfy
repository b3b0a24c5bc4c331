/**
 * The local game session (`TicTacToeViewModel`): it owns one engine, flips who
 * starts at every new game, guards the human's clicks, runs the computer's
 * move as a separate step (the source runs it one second later) and keeps the
 * win, loss and tie counters of the screen state.
 */
module TicTacToeSession {
  import opened TicTacToe

  const MSG_START: string := "¡Tu turno! Toca un cuadro para jugar"
  const MSG_ANDROID_STARTS: string := "Android comienza..."
  const MSG_ANDROID_TURN: string := "Turno de Android..."
  const MSG_YOUR_TURN: string := "¡Tu turno!"
  const MSG_TIE: string := "¡Es un empate!"
  const MSG_YOU_WON: string := "¡Ganaste!"
  const MSG_ANDROID_WON: string := "¡Android ganó!"
  const MSG_GAME_ERROR: string := "Error en el juego"

  /** The screen state the session publishes. */
  datatype TicTacToeUiState = TicTacToeUiState(
    board: seq<char>,
    gameMessage: string,
    isGameOver: bool,
    isComputerTurn: bool,
    currentDifficulty: DifficultyLevel,
    showDifficultyDialog: bool,
    showQuitDialog: bool,
    showAboutDialog: bool,
    soundEnabled: bool,
    humanWins: int,
    computerWins: int,
    ties: int)

  /** The screen state before anything happens: the record's default values. */
  function DefaultUiState(): (s: TicTacToeUiState)
    ensures s.board == EmptyBoard() && !s.isGameOver && !s.isComputerTurn
    ensures s.currentDifficulty == Expert && s.soundEnabled
    ensures s.humanWins == 0 && s.computerWins == 0 && s.ties == 0
  {
    TicTacToeUiState(EmptyBoard(), MSG_START, false, false, Expert, false, false, false, true, 0, 0, 0)
  }

  datatype TicTacToeEvent =
    | CellClicked(position: int)
    | NewGameRequested
    | ComputerMoveCompleted
    | ShowDifficultyDialog
    | ShowQuitDialog
    | ShowAboutDialog
    | DismissDialogs
    | SetDifficulty(difficulty: DifficultyLevel)
    | QuitGame
    | SetSoundEnabled(enabled: bool)
    | ResetScores

  /** `getDifficultyDisplayName`. */
  function DifficultyDisplayName(difficulty: DifficultyLevel): (name: string)
    ensures difficulty == Easy ==> name == "Fácil"
    ensures difficulty == Harder ==> name == "Difícil"
    ensures difficulty == Expert ==> name == "Experto"
  {
    match difficulty
    case Easy => "Fácil"
    case Harder => "Difícil"
    case Expert => "Experto"
  }

  /** Each level is shown under its own name. */
  lemma DisplayNamesDistinct(a: DifficultyLevel, b: DifficultyLevel)
    requires a != b
    ensures DifficultyDisplayName(a) != DifficultyDisplayName(b)
  {
  }

  /** The message `updateUIAfterMove` shows for a result of the win/draw check. */
  function OutcomeMessage(winner: int, isComputerTurn: bool): (msg: string)
    ensures winner == CONTINUES ==> msg == (if isComputerTurn then MSG_ANDROID_TURN else MSG_YOUR_TURN)
    ensures winner == DRAW ==> msg == MSG_TIE
    ensures winner == HUMAN_WINS ==> msg == MSG_YOU_WON
    ensures winner == COMPUTER_WINS ==> msg == MSG_ANDROID_WON
  {
    if winner == CONTINUES then (if isComputerTurn then MSG_ANDROID_TURN else MSG_YOUR_TURN)
    else if winner == DRAW then MSG_TIE
    else if winner == HUMAN_WINS then MSG_YOU_WON
    else if winner == COMPUTER_WINS then MSG_ANDROID_WON
    else MSG_GAME_ERROR
  }

  /**
   * The screen state `updateUIAfterMove` leaves after a move produced board b:
   * the engine's board, game over exactly when the check is non-zero, and one
   * counter (ties, human wins or computer wins) up by one when the game ended.
   */
  function AfterMove(s: TicTacToeUiState, b: seq<char>): (r: TicTacToeUiState)
    requires IsBoard(b)
    ensures r.board == b
    ensures r.isGameOver <==> Winner(b) != CONTINUES
    ensures r.gameMessage == OutcomeMessage(Winner(b), s.isComputerTurn)
    ensures r.ties == s.ties + (if Winner(b) == DRAW then 1 else 0)
    ensures r.humanWins == s.humanWins + (if Winner(b) == HUMAN_WINS then 1 else 0)
    ensures r.computerWins == s.computerWins + (if Winner(b) == COMPUTER_WINS then 1 else 0)
    ensures r.ties + r.humanWins + r.computerWins == s.ties + s.humanWins + s.computerWins + (if r.isGameOver then 1 else 0)
    ensures r == s.(board := r.board, gameMessage := r.gameMessage, isGameOver := r.isGameOver,
                    humanWins := r.humanWins, computerWins := r.computerWins, ties := r.ties)
  {
    var winner := Winner(b);
    var isGameOver := winner != CONTINUES;
    s.(board := b,
       gameMessage := OutcomeMessage(winner, s.isComputerTurn),
       isGameOver := isGameOver,
       humanWins := if isGameOver && winner == HUMAN_WINS then s.humanWins + 1 else s.humanWins,
       computerWins := if isGameOver && winner == COMPUTER_WINS then s.computerWins + 1 else s.computerWins,
       ties := if isGameOver && winner == DRAW then s.ties + 1 else s.ties)
  }

  /** The guard of `handleCellClick`: the game is over, the computer is to move, or the cell is taken. */
  predicate ClickIgnored(s: TicTacToeUiState, position: int)
    requires 0 <= position < |s.board|
    ensures s.isGameOver || s.isComputerTurn ==> ClickIgnored(s, position)
    ensures !ClickIgnored(s, position) ==> s.board[position] == OPEN_SPOT
  {
    s.isGameOver || s.isComputerTurn || s.board[position] != OPEN_SPOT
  }

  /** The screen state after an accepted click produced board b: the computer's turn unless the game ended. */
  function AfterHumanMove(s: TicTacToeUiState, b: seq<char>): (r: TicTacToeUiState)
    requires IsBoard(b)
    ensures r.board == b
    ensures r.isGameOver <==> Winner(b) != CONTINUES
    ensures r.isGameOver ==> r == AfterMove(s, b)
    ensures !r.isGameOver ==> && r.isComputerTurn && r.gameMessage == MSG_ANDROID_TURN
                              && r.humanWins == s.humanWins && r.computerWins == s.computerWins && r.ties == s.ties
  {
    var after := AfterMove(s, b);
    if after.isGameOver then after
    else after.(isComputerTurn := true, gameMessage := MSG_ANDROID_TURN)
  }

  /** The other mark: `startNewGame` flips who goes first. */
  function Flip(c: char): (r: char)
    ensures c == HUMAN_PLAYER ==> r == COMPUTER_PLAYER
    ensures c != HUMAN_PLAYER ==> r == HUMAN_PLAYER
  {
    if c == HUMAN_PLAYER then COMPUTER_PLAYER else HUMAN_PLAYER
  }

  /** The screen state `startNewGame` leaves when `first` goes first (the computer's start is then scheduled). */
  function NewGameState(s: TicTacToeUiState, first: char): (r: TicTacToeUiState)
    ensures r.board == EmptyBoard() && !r.isGameOver
    ensures r.isComputerTurn <==> first == COMPUTER_PLAYER
    ensures r.gameMessage == (if first == COMPUTER_PLAYER then MSG_ANDROID_TURN else MSG_START)
    ensures r.humanWins == s.humanWins && r.computerWins == s.computerWins && r.ties == s.ties
    ensures r.currentDifficulty == s.currentDifficulty && r.soundEnabled == s.soundEnabled
  {
    if first == COMPUTER_PLAYER then
      s.(board := EmptyBoard(), gameMessage := MSG_ANDROID_TURN, isGameOver := false, isComputerTurn := true)
    else
      s.(board := EmptyBoard(), gameMessage := MSG_START, isGameOver := false, isComputerTurn := false)
  }

  /**
   * After the computer's move in a game that goes on, the screen still says
   * "Turno de Android...": the message is chosen while the computer's turn
   * flag is set, and the flag is cleared only afterwards.
   */
  lemma ComputerMoveKeepsAndroidMessage(s: TicTacToeUiState, b: seq<char>)
    requires IsBoard(b) && s.isComputerTurn && Winner(b) == CONTINUES
    ensures var r := AfterMove(s, b).(isComputerTurn := false);
            r.gameMessage == MSG_ANDROID_TURN && !r.isComputerTurn && !r.isGameOver
  {
  }

  /**
   * The computer's one-second timer is never cancelled, so it can fire after
   * the game it was started for has ended. Its move then goes into a finished
   * game: the board still holds the line or is still full, the game is still
   * over, and `updateUIAfterMove` counts one more result.
   */
  lemma StaleComputerMoveCountsAgain(s: TicTacToeUiState, b: seq<char>, m: int)
    requires IsBoard(b) && Winner(b) != CONTINUES
    requires 0 <= m < BOARD_SIZE && b[m] == OPEN_SPOT
    ensures var r := AfterMove(s, b[m := COMPUTER_PLAYER]);
            r.isGameOver && r.ties + r.humanWins + r.computerWins == s.ties + s.humanWins + s.computerWins + 1
  {
    assert HasOpenSpot(b);
    assert HasLine(b, HUMAN_PLAYER) || HasLine(b, COMPUTER_PLAYER);
    if HasLine(b, HUMAN_PLAYER) {
      MoveKeepsLines(b, m, COMPUTER_PLAYER, HUMAN_PLAYER);
    } else {
      MoveKeepsLines(b, m, COMPUTER_PLAYER, COMPUTER_PLAYER);
    }
  }

  /**
   * An instance: the human won with the top row while a timer was still
   * pending; its move into the finished game makes the second win count twice.
   */
  lemma StaleTimerCountsHumanWinTwice(s: TicTacToeUiState)
    requires s.humanWins == 1
    ensures var b := "XXXOO    ";
            && IsBoard(b) && Winner(b) == HUMAN_WINS && AfterMove(s, b).humanWins == 2
            && AfterMove(AfterMove(s, b), b[5 := COMPUTER_PLAYER]).humanWins == 3
  {
    var b := "XXXOO    ";
    assert Line(b, 0, 1, 2, HUMAN_PLAYER);
    assert Line(b[5 := COMPUTER_PLAYER], 0, 1, 2, HUMAN_PLAYER);
  }

  /** Who starts the n-th game: `goFirst` begins as 'X' and is flipped before every game, the first included. */
  function StarterOfGame(n: nat): (c: char)
    ensures c == HUMAN_PLAYER || c == COMPUTER_PLAYER
  {
    if n == 0 then HUMAN_PLAYER else Flip(StarterOfGame(n - 1))
  }

  /** Starts alternate, and the very first game is the computer's. */
  lemma {:induction false} StartersAlternate(n: nat)
    ensures StarterOfGame(n) == (if n % 2 == 1 then COMPUTER_PLAYER else HUMAN_PLAYER)
  {
    if n > 0 {
      StartersAlternate(n - 1);
    }
  }

  /** `TicTacToeViewModel`, without the coroutine delay and the platform storage. */
  class TicTacToeViewModel {
    const game: TicTacToeGame
    var goFirst: char
    var uiState: TicTacToeUiState

    /** What holds whatever the board: the engine, the starter flag, the difficulty and the counters. */
    ghost predicate Consistent()
      reads this, game
    {
      && game.Valid()
      && (goFirst == HUMAN_PLAYER || goFirst == COMPUTER_PLAYER)
      && uiState.currentDifficulty == game.mDifficultyLevel
      && uiState.humanWins >= 0 && uiState.computerWins >= 0 && uiState.ties >= 0
    }

    /** The screen shows the engine's board and its game-over status. */
    ghost predicate Synced()
      reads this, game, game.mBoard
    {
      && Consistent()
      && uiState.board == game.mBoard[..]
      && uiState.isGameOver == (Winner(game.mBoard[..]) != CONTINUES)
    }

    /** Between events: synced, and the computer is never to move in a finished game. */
    ghost predicate Valid()
      reads this, game, game.mBoard
    {
      Synced() && (uiState.isComputerTurn ==> !uiState.isGameOver)
    }

    /** With no saved state, the session starts a new game at once, so the computer opens the first one. */
    constructor ()
      ensures Valid() && fresh(game) && fresh(game.mBoard)
      ensures goFirst == COMPUTER_PLAYER && goFirst == StarterOfGame(1)
      ensures uiState == NewGameState(DefaultUiState(), COMPUTER_PLAYER)
    {
      game := new TicTacToeGame();
      goFirst := HUMAN_PLAYER;
      uiState := DefaultUiState();
      new;
      StartNewGame();
    }

    /** `onEvent`: dispatches one user or timer event. */
    method OnEvent(event: TicTacToeEvent)
      requires Valid()
      requires event.CellClicked? ==> 0 <= event.position < BOARD_SIZE
      requires event.ComputerMoveCompleted? ==> HasOpenSpot(game.mBoard[..])
      modifies this, game, game.mBoard
      ensures Valid()
      ensures !event.SetDifficulty? ==> game.mDifficultyLevel == old(game.mDifficultyLevel)
      ensures !event.NewGameRequested? ==> goFirst == old(goFirst)
      ensures !(event.CellClicked? || event.NewGameRequested? || event.ComputerMoveCompleted?) ==>
                game.mBoard[..] == old(game.mBoard[..])
      ensures event.CellClicked? && ClickIgnored(old(uiState), event.position) ==>
                uiState == old(uiState) && game.mBoard[..] == old(game.mBoard[..])
      ensures event.CellClicked? && !ClickIgnored(old(uiState), event.position) ==>
                && game.mBoard[..] == old(game.mBoard[..])[event.position := HUMAN_PLAYER]
                && uiState == AfterHumanMove(old(uiState), game.mBoard[..])
      ensures event.NewGameRequested? ==>
                && goFirst == Flip(old(goFirst))
                && game.mBoard[..] == EmptyBoard()
                && uiState == NewGameState(old(uiState), goFirst)
      ensures event.ComputerMoveCompleted? ==>
                && (exists m :: ComputerMoveAllowed(old(game.mBoard[..]), game.mDifficultyLevel, m)
                                && game.mBoard[..] == old(game.mBoard[..])[m := COMPUTER_PLAYER])
                && uiState == AfterMove(old(uiState), game.mBoard[..]).(isComputerTurn := false)
      ensures event.ShowDifficultyDialog? ==> uiState == old(uiState).(showDifficultyDialog := true)
      ensures event.ShowQuitDialog? ==> uiState == old(uiState).(showQuitDialog := true)
      ensures event.ShowAboutDialog? ==> uiState == old(uiState).(showAboutDialog := true)
      ensures event.DismissDialogs? ==>
                uiState == old(uiState).(showDifficultyDialog := false, showQuitDialog := false, showAboutDialog := false)
      ensures event.SetDifficulty? ==>
                && game.mDifficultyLevel == event.difficulty
                && uiState == old(uiState).(currentDifficulty := event.difficulty, showDifficultyDialog := false)
      ensures event.QuitGame? ==> uiState == old(uiState)
      ensures event.SetSoundEnabled? ==> uiState == old(uiState).(soundEnabled := event.enabled)
      ensures event.ResetScores? ==> uiState == old(uiState).(humanWins := 0, computerWins := 0, ties := 0)
    {
      match event
      case CellClicked(position) =>
        HandleCellClick(position);
      case NewGameRequested =>
        StartNewGame();
      case ComputerMoveCompleted =>
        HandleComputerMove();
      case ShowDifficultyDialog =>
        uiState := uiState.(showDifficultyDialog := true);
      case ShowQuitDialog =>
        uiState := uiState.(showQuitDialog := true);
      case ShowAboutDialog =>
        uiState := uiState.(showAboutDialog := true);
      case DismissDialogs =>
        uiState := uiState.(showDifficultyDialog := false, showQuitDialog := false, showAboutDialog := false);
      case SetDifficulty(difficulty) =>
        game.SetDifficultyLevel(difficulty);
        uiState := uiState.(currentDifficulty := difficulty, showDifficultyDialog := false);
      case QuitGame =>
      case SetSoundEnabled(enabled) =>
        uiState := uiState.(soundEnabled := enabled);
      case ResetScores =>
        uiState := uiState.(humanWins := 0, computerWins := 0, ties := 0);
    }

    /**
     * `handleCellClick`: ignored when the game is over, the computer is to
     * move or the cell is taken; otherwise the human's mark goes in, the screen
     * is updated and, unless the game ended, the computer's move is scheduled.
     */
    method HandleCellClick(position: int)
      requires Valid() && 0 <= position < BOARD_SIZE
      modifies this, game.mBoard
      ensures Valid() && goFirst == old(goFirst)
      ensures ClickIgnored(old(uiState), position) ==>
                uiState == old(uiState) && game.mBoard[..] == old(game.mBoard[..])
      ensures !ClickIgnored(old(uiState), position) ==>
                && game.mBoard[..] == old(game.mBoard[..])[position := HUMAN_PLAYER]
                && uiState == AfterHumanMove(old(uiState), game.mBoard[..])
    {
      var currentState := uiState;
      if currentState.isGameOver || currentState.isComputerTurn || currentState.board[position] != OPEN_SPOT {
        return;
      }
      var placed := game.SetMove(HUMAN_PLAYER, position);
      if placed {
        UpdateUiAfterMove();
        if !uiState.isGameOver {
          ScheduleComputerMove();
        }
      }
    }

    /** `scheduleComputerMove`, without the delay: the computer is marked as the one to move. */
    method ScheduleComputerMove()
      requires Valid() && !uiState.isGameOver
      modifies this
      ensures Valid() && goFirst == old(goFirst)
      ensures uiState == old(uiState).(isComputerTurn := true, gameMessage := MSG_ANDROID_TURN)
    {
      uiState := uiState.(isComputerTurn := true, gameMessage := MSG_ANDROID_TURN);
    }

    /**
     * `handleComputerMove`: the engine picks a move at its level, the move is
     * written, the screen is updated and the computer's turn ends. The timer
     * that runs it is never cancelled, so it may fire in any state, a finished
     * game included (`StaleComputerMoveCountsAgain`); only a full board is
     * excluded, where the engine's random choice never returns.
     */
    method HandleComputerMove()
      requires Valid() && HasOpenSpot(game.mBoard[..])
      modifies this, game.mBoard
      ensures Valid() && goFirst == old(goFirst)
      ensures !uiState.isComputerTurn
      ensures exists m :: ComputerMoveAllowed(old(game.mBoard[..]), game.mDifficultyLevel, m)
                          && game.mBoard[..] == old(game.mBoard[..])[m := COMPUTER_PLAYER]
      ensures uiState == AfterMove(old(uiState), game.mBoard[..]).(isComputerTurn := false)
    {
      ghost var before := game.mBoard[..];
      var computerMove := game.GetComputerMove();
      var placed := game.SetMove(COMPUTER_PLAYER, computerMove);
      assert ComputerMoveAllowed(before, game.mDifficultyLevel, computerMove);
      UpdateUiAfterMove();
      uiState := uiState.(isComputerTurn := false);
    }

    /** `updateUIAfterMove`: copies the engine's board cell by cell and records the result of the check. */
    method UpdateUiAfterMove()
      requires Consistent()
      modifies this
      ensures Synced() && goFirst == old(goFirst)
      ensures uiState == AfterMove(old(uiState), game.mBoard[..])
    {
      var board: seq<char> := [];
      for index := 0 to BOARD_SIZE
        invariant board == game.mBoard[..index]
      {
        board := board + [game.GetBoardOccupant(index)];
      }
      assert board == game.mBoard[..];
      var winner := game.CheckForWinner();
      var newMessage := OutcomeMessage(winner, uiState.isComputerTurn);
      var isGameOver := winner != CONTINUES;
      var humanWins, computerWins, ties := uiState.humanWins, uiState.computerWins, uiState.ties;
      if isGameOver {
        if winner == DRAW {
          ties := ties + 1;
        } else if winner == HUMAN_WINS {
          humanWins := humanWins + 1;
        } else if winner == COMPUTER_WINS {
          computerWins := computerWins + 1;
        }
      }
      uiState := uiState.(board := board, gameMessage := newMessage, isGameOver := isGameOver,
                          humanWins := humanWins, computerWins := computerWins, ties := ties);
    }

    /** `startNewGame`: clears the board, flips who goes first and, if that is the computer, schedules its move. */
    method StartNewGame()
      requires Consistent()
      modifies this, game.mBoard
      ensures Valid()
      ensures goFirst == Flip(old(goFirst))
      ensures game.mBoard[..] == EmptyBoard()
      ensures uiState == NewGameState(old(uiState), goFirst)
    {
      game.ClearBoard();
      goFirst := if goFirst == HUMAN_PLAYER then COMPUTER_PLAYER else HUMAN_PLAYER;
      var startMessage := if goFirst == COMPUTER_PLAYER then MSG_ANDROID_STARTS else MSG_START;
      uiState := uiState.(board := EmptyBoard(), gameMessage := startMessage, isGameOver := false,
                          isComputerTurn := goFirst == COMPUTER_PLAYER);
      assert Winner(EmptyBoard()) == CONTINUES by {
        assert EmptyBoard()[0] == OPEN_SPOT;
      }
      if goFirst == COMPUTER_PLAYER {
        ScheduleComputerMove();
      }
    }
  }
}
