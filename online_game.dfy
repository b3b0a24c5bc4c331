/**
 * The shared online match document (`OnlineGame`, `Player`, `GameStatus`),
 * the win rule the repository applies to it (`checkWinner`) and the pure
 * outcome of each validated read-modify-write: creating, joining and moving.
 */
module OnlineGames {
  import opened Types
  import TicTacToe

  const BLANK: string := " "
  const SYMBOL_X: string := "X"
  const SYMBOL_O: string := "O"

  datatype GameStatus = WAITING | PLAYING | FINISHED

  datatype Player = Player(playerId: string, playerName: string, symbol: string)

  /** The match document, field for field; `createdAt` is an opaque clock reading. */
  datatype OnlineGame = OnlineGame(
    gameId: string,
    createdBy: string,
    player1: Option<Player>,
    player2: Option<Player>,
    board: seq<string>,
    currentTurn: string,
    status: GameStatus,
    winner: Option<string>,
    createdAt: int)

  /** The reasons the repository reports, each with the message it carries. */
  datatype GameError =
    | GameNotFound
    | GameNotWaiting
    | GameFull
    | GameNotPlaying
    | NotYourTurn
    | PositionOccupied
    | PositionOutOfRange

  /** The message each failure carries to the screen. */
  function ErrorMessage(e: GameError): (msg: string)
    ensures e == GameNotFound ==> msg == "Juego no encontrado"
    ensures e == GameNotWaiting ==> msg == "El juego ya está en curso o terminado"
    ensures e == GameFull ==> msg == "El juego ya está lleno"
    ensures e == GameNotPlaying ==> msg == "El juego no está en curso"
    ensures e == NotYourTurn ==> msg == "No es tu turno"
    ensures e == PositionOccupied ==> msg == "Posición ocupada"
    ensures e == PositionOutOfRange ==> msg == "Index out of range"
  {
    match e
    case GameNotFound => "Juego no encontrado"
    case GameNotWaiting => "El juego ya está en curso o terminado"
    case GameFull => "El juego ya está lleno"
    case GameNotPlaying => "El juego no está en curso"
    case NotYourTurn => "No es tu turno"
    case PositionOccupied => "Posición ocupada"
    case PositionOutOfRange => "Index out of range"
  }

  /** Nine blank cells: the board of a new match. */
  function EmptyBoard(): (b: seq<string>)
    ensures |b| == 9 && forall i :: 0 <= i < 9 ==> b[i] == BLANK
  {
    seq(9, _ => BLANK)
  }

  /** The i-th of the 8 patterns in the order `checkWinner` lists them: rows, columns, diagonals. */
  function WinPattern(i: nat): (p: (nat, nat, nat))
    requires i < 8
    ensures p.0 < 9 && p.1 < 9 && p.2 < 9
  {
    if i == 0 then (0, 1, 2) else if i == 1 then (3, 4, 5) else if i == 2 then (6, 7, 8)
    else if i == 3 then (0, 3, 6) else if i == 4 then (1, 4, 7) else if i == 5 then (2, 5, 8)
    else if i == 6 then (0, 4, 8) else (2, 4, 6)
  }

  /** Pattern i holds three equal, non-blank cells. */
  predicate Complete(board: seq<string>, i: nat)
    requires |board| == 9 && i < 8
  {
    var (a, b, c) := WinPattern(i);
    board[a] != BLANK && board[a] == board[b] && board[b] == board[c]
  }

  /** The symbol in pattern i's first cell. */
  function PatternSymbol(board: seq<string>, i: nat): string
    requires |board| == 9 && i < 8
  {
    board[WinPattern(i).0]
  }

  /** The scan of `checkWinner` from pattern k on: the first complete pattern's symbol, or none. */
  function CheckWinnerFrom(board: seq<string>, k: nat): (r: Option<string>)
    requires |board| == 9 && k <= 8
    decreases 8 - k
    ensures r.None? <==> forall i :: k <= i < 8 ==> !Complete(board, i)
    ensures r.Some? ==> r.value != BLANK
    ensures r.Some? ==> exists i :: k <= i < 8 && Complete(board, i) && PatternSymbol(board, i) == r.value
                                    && forall j :: k <= j < i ==> !Complete(board, j)
  {
    if k == 8 then None
    else if Complete(board, k) then Some(PatternSymbol(board, k))
    else CheckWinnerFrom(board, k + 1)
  }

  /** `checkWinner`: the symbol of the first complete pattern in the listed order, or none. */
  function CheckWinner(board: seq<string>): (w: Option<string>)
    requires |board| == 9
    ensures w.None? <==> forall i :: 0 <= i < 8 ==> !Complete(board, i)
    ensures w.Some? ==> w.value != BLANK && HasLineOf(board, w.value)
  {
    CheckWinnerFrom(board, 0)
  }

  /** Every cell is blank, "X" or "O". */
  predicate WellFormedBoard(board: seq<string>)
  {
    |board| == 9 && forall i :: 0 <= i < 9 ==> board[i] in {BLANK, SYMBOL_X, SYMBOL_O}
  }

  /** Some pattern is complete with symbol s. */
  predicate HasLineOf(board: seq<string>, s: string)
    requires |board| == 9
  {
    exists i :: 0 <= i < 8 && Complete(board, i) && PatternSymbol(board, i) == s
  }

  /** The same board with the local engine's marks: "X" as 'X', "O" as 'O', anything else open. */
  function ToLocal(board: seq<string>): (b: seq<char>)
    requires |board| == 9
    ensures TicTacToe.IsBoard(b)
    ensures forall i :: 0 <= i < 9 ==> (b[i] == TicTacToe.HUMAN_PLAYER <==> board[i] == SYMBOL_X)
    ensures forall i :: 0 <= i < 9 ==> (b[i] == TicTacToe.COMPUTER_PLAYER <==> board[i] == SYMBOL_O)
  {
    seq(9, i requires 0 <= i < 9 =>
      if board[i] == SYMBOL_X then TicTacToe.HUMAN_PLAYER
      else if board[i] == SYMBOL_O then TicTacToe.COMPUTER_PLAYER
      else TicTacToe.OPEN_SPOT)
  }

  /** One pattern: complete with symbol s online iff a line of mark m locally. */
  lemma PatternAgrees(board: seq<string>, s: string, m: char, i: nat)
    requires WellFormedBoard(board) && i < 8
    requires (s == SYMBOL_X && m == TicTacToe.HUMAN_PLAYER) || (s == SYMBOL_O && m == TicTacToe.COMPUTER_PLAYER)
    ensures (Complete(board, i) && PatternSymbol(board, i) == s)
            <==> TicTacToe.Line(ToLocal(board), WinPattern(i).0, WinPattern(i).1, WinPattern(i).2, m)
  {
  }

  /** Some pattern complete with symbol s online iff some line of mark m locally. */
  lemma LinesAgreeFor(board: seq<string>, s: string, m: char)
    requires WellFormedBoard(board)
    requires (s == SYMBOL_X && m == TicTacToe.HUMAN_PLAYER) || (s == SYMBOL_O && m == TicTacToe.COMPUTER_PLAYER)
    ensures HasLineOf(board, s) <==> TicTacToe.HasLine(ToLocal(board), m)
  {
    var b := ToLocal(board);
    forall i | 0 <= i < 8
      ensures (Complete(board, i) && PatternSymbol(board, i) == s)
              <==> TicTacToe.Line(b, WinPattern(i).0, WinPattern(i).1, WinPattern(i).2, m)
    {
      PatternAgrees(board, s, m, i);
    }
    if TicTacToe.HasLine(b, m) {
      var i := if TicTacToe.Line(b, 0, 1, 2, m) then 0
               else if TicTacToe.Line(b, 3, 4, 5, m) then 1
               else if TicTacToe.Line(b, 6, 7, 8, m) then 2
               else if TicTacToe.Line(b, 0, 3, 6, m) then 3
               else if TicTacToe.Line(b, 1, 4, 7, m) then 4
               else if TicTacToe.Line(b, 2, 5, 8, m) then 5
               else if TicTacToe.Line(b, 0, 4, 8, m) then 6
               else 7;
      assert Complete(board, i) && PatternSymbol(board, i) == s;
    }
  }

  /** A line of "X" online is a line of 'X' locally, and likewise for "O". */
  lemma LinesAgree(board: seq<string>)
    requires WellFormedBoard(board)
    ensures HasLineOf(board, SYMBOL_X) <==> TicTacToe.HasLine(ToLocal(board), TicTacToe.HUMAN_PLAYER)
    ensures HasLineOf(board, SYMBOL_O) <==> TicTacToe.HasLine(ToLocal(board), TicTacToe.COMPUTER_PLAYER)
  {
    LinesAgreeFor(board, SYMBOL_X, TicTacToe.HUMAN_PLAYER);
    LinesAgreeFor(board, SYMBOL_O, TicTacToe.COMPUTER_PLAYER);
  }

  /**
   * The online rule and the local one agree: when at most one symbol has a
   * line, `checkWinner` names "X" exactly when the local check reports the
   * human's win (2), "O" exactly when it reports the computer's (3), and
   * nothing exactly when the local game continues or is drawn.
   */
  lemma CheckWinnerMatchesLocalRule(board: seq<string>)
    requires WellFormedBoard(board)
    requires !(HasLineOf(board, SYMBOL_X) && HasLineOf(board, SYMBOL_O))
    ensures CheckWinner(board) == Some(SYMBOL_X) <==> TicTacToe.Winner(ToLocal(board)) == TicTacToe.HUMAN_WINS
    ensures CheckWinner(board) == Some(SYMBOL_O) <==> TicTacToe.Winner(ToLocal(board)) == TicTacToe.COMPUTER_WINS
    ensures CheckWinner(board).None? <==> TicTacToe.Winner(ToLocal(board)) in {TicTacToe.CONTINUES, TicTacToe.DRAW}
  {
    LinesAgree(board);
    var r := CheckWinner(board);
    if r.Some? {
      var i :| 0 <= i < 8 && Complete(board, i) && PatternSymbol(board, i) == r.value;
      assert r.value == SYMBOL_X || r.value == SYMBOL_O;
      assert HasLineOf(board, r.value);
    } else {
      assert !HasLineOf(board, SYMBOL_X) && !HasLineOf(board, SYMBOL_O);
    }
  }

  /** `createGame`'s document: the creator is player 1 with "X", holds the turn, and waits on a blank board. */
  function NewGame(gameId: string, playerName: string, playerId: string, createdAt: int): (g: OnlineGame)
    ensures g.gameId == gameId && g.createdBy == playerId && g.currentTurn == playerId
    ensures g.player1 == Some(Player(playerId, playerName, SYMBOL_X)) && g.player2.None?
    ensures g.board == EmptyBoard() && g.status == WAITING && g.winner.None? && g.createdAt == createdAt
  {
    OnlineGame(gameId, playerId, Some(Player(playerId, playerName, SYMBOL_X)), None, EmptyBoard(),
               playerId, WAITING, None, createdAt)
  }

  /**
   * `joinGame`'s validation and update of the stored document (None: no such
   * game). It fails if the game is missing, not waiting, or already has a
   * second player; otherwise only player 2 ("O") and the status change.
   */
  function JoinOutcome(stored: Option<OnlineGame>, playerName: string, playerId: string): (r: Result<OnlineGame, GameError>)
    ensures r.Failure? <==> stored.None? || stored.value.status != WAITING || stored.value.player2.Some?
    ensures stored.None? ==> r == Failure(GameNotFound)
    ensures stored.Some? && stored.value.status != WAITING ==> r == Failure(GameNotWaiting)
    ensures stored.Some? && stored.value.status == WAITING && stored.value.player2.Some? ==> r == Failure(GameFull)
    ensures r.Success? ==> r.value == stored.value.(player2 := Some(Player(playerId, playerName, SYMBOL_O)), status := PLAYING)
  {
    match stored
    case None => Failure(GameNotFound)
    case Some(game) =>
      if game.status != WAITING then Failure(GameNotWaiting)
      else if game.player2.Some? then Failure(GameFull)
      else Success(game.(player2 := Some(Player(playerId, playerName, SYMBOL_O)), status := PLAYING))
  }

  /** Player 1's id equals the mover's (a missing player 1 matches nobody). */
  predicate IsPlayer1(game: OnlineGame, playerId: string)
    ensures game.player1.None? ==> !IsPlayer1(game, playerId)
    ensures DistinctPlayers(game) && playerId == game.player2.value.playerId ==> !IsPlayer1(game, playerId)
  {
    game.player1.Some? && game.player1.value.playerId == playerId
  }

  /** The symbol `makeMove` writes for a mover: "X" for player 1, "O" for anybody else. */
  function MoverSymbol(game: OnlineGame, playerId: string): (s: string)
    ensures s == SYMBOL_X <==> IsPlayer1(game, playerId)
    ensures s == SYMBOL_X || s == SYMBOL_O
  {
    if IsPlayer1(game, playerId) then SYMBOL_X else SYMBOL_O
  }

  /** The id that holds the turn after a move: the other player's, or "" when that player is missing. */
  function NextTurn(game: OnlineGame, playerId: string): (t: string)
    ensures IsPlayer1(game, playerId) ==> t == (if game.player2.Some? then game.player2.value.playerId else "")
    ensures !IsPlayer1(game, playerId) ==> t == (if game.player1.Some? then game.player1.value.playerId else "")
    ensures DistinctPlayers(game) && (playerId == game.player1.value.playerId || playerId == game.player2.value.playerId) ==>
              t != playerId && (t == game.player1.value.playerId || t == game.player2.value.playerId)
  {
    if IsPlayer1(game, playerId) then (if game.player2.Some? then game.player2.value.playerId else "")
    else (if game.player1.Some? then game.player1.value.playerId else "")
  }

  /**
   * `makeMove`'s validation and update of one stored document. It fails when
   * the game is not being played, the mover does not hold the turn, the
   * position is off the board (an index error the source catches) or the cell
   * is taken. Otherwise only that cell, the turn, the status and the winner
   * change: the mover's symbol goes in, the turn passes on, the winner is what
   * `checkWinner` finds, and the game is finished exactly when there is a
   * winner or no blank cell is left.
   */
  function MoveOutcome(game: OnlineGame, position: int, playerId: string): (r: Result<OnlineGame, GameError>)
    requires |game.board| == 9
    ensures r.Failure? <==> game.status != PLAYING || game.currentTurn != playerId
                            || !(0 <= position < 9) || game.board[position] != BLANK
    ensures game.status != PLAYING ==> r == Failure(GameNotPlaying)
    ensures game.status == PLAYING && game.currentTurn != playerId ==> r == Failure(NotYourTurn)
    ensures game.status == PLAYING && game.currentTurn == playerId && !(0 <= position < 9) ==>
              r == Failure(PositionOutOfRange)
    ensures game.status == PLAYING && game.currentTurn == playerId && 0 <= position < 9 && game.board[position] != BLANK ==>
              r == Failure(PositionOccupied)
    ensures r.Success? ==>
      && |r.value.board| == 9
      && r.value.board == game.board[position := MoverSymbol(game, playerId)]
      && r.value.currentTurn == NextTurn(game, playerId)
      && r.value.winner == CheckWinner(r.value.board)
      && (r.value.status == FINISHED <==> r.value.winner.Some? || BLANK !in r.value.board)
      && (r.value.status != FINISHED ==> r.value.status == PLAYING)
      && r.value == game.(board := r.value.board, currentTurn := r.value.currentTurn,
                          status := r.value.status, winner := r.value.winner)
  {
    if game.status != PLAYING then Failure(GameNotPlaying)
    else if game.currentTurn != playerId then Failure(NotYourTurn)
    else if !(0 <= position < |game.board|) then Failure(PositionOutOfRange)
    else if game.board[position] != BLANK then Failure(PositionOccupied)
    else
      var newBoard := game.board[position := MoverSymbol(game, playerId)];
      var winner := CheckWinner(newBoard);
      var newStatus := if winner.Some? || BLANK !in newBoard then FINISHED else PLAYING;
      Success(game.(board := newBoard, currentTurn := NextTurn(game, playerId), status := newStatus, winner := winner))
  }

  /** Both players are present, with different ids. */
  predicate DistinctPlayers(game: OnlineGame)
  {
    game.player1.Some? && game.player2.Some? && game.player1.value.playerId != game.player2.value.playerId
  }

  /**
   * A move cannot be applied twice: repeating the same successful move on the
   * document it produced fails, because the game is over or the turn has
   * passed to the other player.
   */
  lemma RepeatedMoveRejected(game: OnlineGame, position: int, playerId: string)
    requires |game.board| == 9 && DistinctPlayers(game)
    requires MoveOutcome(game, position, playerId).Success?
    ensures var after := MoveOutcome(game, position, playerId).value;
            MoveOutcome(after, position, playerId).Failure?
            && (after.status == PLAYING ==> MoveOutcome(after, position, playerId) == Failure(NotYourTurn))
  {
    var after := MoveOutcome(game, position, playerId).value;
    assert after.currentTurn != playerId;
  }

  /**
   * A successful move only ever completes the mover's own lines: if no
   * pattern was complete before, the winner recorded afterwards, if any, is
   * the mover's symbol.
   */
  lemma {:induction false} MoverIsOnlyNewWinner(game: OnlineGame, position: int, playerId: string)
    requires |game.board| == 9 && CheckWinner(game.board).None?
    requires MoveOutcome(game, position, playerId).Success?
    ensures var after := MoveOutcome(game, position, playerId).value;
            after.winner.Some? ==> after.winner.value == MoverSymbol(game, playerId)
  {
    var after := MoveOutcome(game, position, playerId).value;
    if after.winner.Some? {
      var i :| 0 <= i < 8 && Complete(after.board, i) && PatternSymbol(after.board, i) == after.winner.value;
      assert !Complete(game.board, i);
      var (a, b, c) := WinPattern(i);
      assert position == a || position == b || position == c;
    }
  }
}
