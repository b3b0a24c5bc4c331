/**
 * The local Tic-Tac-Toe engine: a 9-cell board of characters, the win/draw rule
 * (`checkForWinner`) and the computer's move selection at three difficulty levels.
 *
 * The rule functions below work on the board as a sequence; the class
 * `TicTacToeGame` holds the board as an array that its methods update in place,
 * and each method is proved against those functions.
 */
module TicTacToe {

  const HUMAN_PLAYER: char := 'X'
  const COMPUTER_PLAYER: char := 'O'
  const OPEN_SPOT: char := ' '
  const BOARD_SIZE: int := 9

  /** Results of the win/draw check. */
  const CONTINUES: int := 0
  const DRAW: int := 1
  const HUMAN_WINS: int := 2
  const COMPUTER_WINS: int := 3

  datatype DifficultyLevel = Easy | Harder | Expert

  /** A board as the rules see it: 9 cells, row by row. */
  predicate IsBoard(b: seq<char>) {
    |b| == BOARD_SIZE
  }

  /** The board every game starts from. */
  function EmptyBoard(): (b: seq<char>)
    ensures IsBoard(b)
    ensures forall i :: 0 <= i < |b| ==> b[i] == OPEN_SPOT
  {
    seq(BOARD_SIZE, _ => OPEN_SPOT)
  }

  /** Cells i, j and k all hold mark p. */
  predicate Line(b: seq<char>, i: nat, j: nat, k: nat, p: char)
    requires i < |b| && j < |b| && k < |b|
  {
    b[i] == p && b[j] == p && b[k] == p
  }

  /** Some row, column or diagonal is filled with mark p. */
  predicate HasLine(b: seq<char>, p: char)
    requires IsBoard(b)
  {
    || Line(b, 0, 1, 2, p) || Line(b, 3, 4, 5, p) || Line(b, 6, 7, 8, p)
    || Line(b, 0, 3, 6, p) || Line(b, 1, 4, 7, p) || Line(b, 2, 5, 8, p)
    || Line(b, 0, 4, 8, p) || Line(b, 2, 4, 6, p)
  }

  /** Some cell is still open. */
  predicate HasOpenSpot(b: seq<char>) {
    OPEN_SPOT in b
  }

  /**
   * The value `checkForWinner` computes: rows top to bottom (human, then
   * computer, for each row), then columns left to right, then the two
   * diagonals for the human, then for the computer, and only then the draw test.
   */
  function Winner(b: seq<char>): (r: int)
    requires IsBoard(b)
    ensures CONTINUES <= r <= COMPUTER_WINS
    ensures r == HUMAN_WINS ==> HasLine(b, HUMAN_PLAYER)
    ensures r == COMPUTER_WINS ==> HasLine(b, COMPUTER_PLAYER)
    ensures HasLine(b, HUMAN_PLAYER) || HasLine(b, COMPUTER_PLAYER) <==> r == HUMAN_WINS || r == COMPUTER_WINS
    ensures r == CONTINUES <==> !HasLine(b, HUMAN_PLAYER) && !HasLine(b, COMPUTER_PLAYER) && HasOpenSpot(b)
    ensures r == DRAW <==> !HasLine(b, HUMAN_PLAYER) && !HasLine(b, COMPUTER_PLAYER) && !HasOpenSpot(b)
    ensures HasLine(b, HUMAN_PLAYER) && !HasLine(b, COMPUTER_PLAYER) ==> r == HUMAN_WINS
    ensures HasLine(b, COMPUTER_PLAYER) && !HasLine(b, HUMAN_PLAYER) ==> r == COMPUTER_WINS
  {
    if Line(b, 0, 1, 2, HUMAN_PLAYER) then HUMAN_WINS
    else if Line(b, 0, 1, 2, COMPUTER_PLAYER) then COMPUTER_WINS
    else if Line(b, 3, 4, 5, HUMAN_PLAYER) then HUMAN_WINS
    else if Line(b, 3, 4, 5, COMPUTER_PLAYER) then COMPUTER_WINS
    else if Line(b, 6, 7, 8, HUMAN_PLAYER) then HUMAN_WINS
    else if Line(b, 6, 7, 8, COMPUTER_PLAYER) then COMPUTER_WINS
    else if Line(b, 0, 3, 6, HUMAN_PLAYER) then HUMAN_WINS
    else if Line(b, 0, 3, 6, COMPUTER_PLAYER) then COMPUTER_WINS
    else if Line(b, 1, 4, 7, HUMAN_PLAYER) then HUMAN_WINS
    else if Line(b, 1, 4, 7, COMPUTER_PLAYER) then COMPUTER_WINS
    else if Line(b, 2, 5, 8, HUMAN_PLAYER) then HUMAN_WINS
    else if Line(b, 2, 5, 8, COMPUTER_PLAYER) then COMPUTER_WINS
    else if Line(b, 0, 4, 8, HUMAN_PLAYER) || Line(b, 2, 4, 6, HUMAN_PLAYER) then HUMAN_WINS
    else if Line(b, 0, 4, 8, COMPUTER_PLAYER) || Line(b, 2, 4, 6, COMPUTER_PLAYER) then COMPUTER_WINS
    else if OPEN_SPOT in b then CONTINUES
    else DRAW
  }

  /**
   * The lowest open index at or after `from` where writing mark p makes the
   * win/draw check report `target`, or -1 when there is none.
   */
  function FirstCompleting(b: seq<char>, p: char, target: int, from: nat): (r: int)
    requires IsBoard(b) && from <= BOARD_SIZE
    decreases BOARD_SIZE - from
    ensures r == -1 || (from <= r < BOARD_SIZE && b[r] == OPEN_SPOT && Winner(b[r := p]) == target)
    ensures r != -1 ==> forall j :: from <= j < r && b[j] == OPEN_SPOT ==> Winner(b[j := p]) != target
    ensures r == -1 ==> forall j :: from <= j < BOARD_SIZE && b[j] == OPEN_SPOT ==> Winner(b[j := p]) != target
  {
    if from == BOARD_SIZE then -1
    else if b[from] == OPEN_SPOT && Winner(b[from := p]) == target then from
    else FirstCompleting(b, p, target, from + 1)
  }

  /** `getWinningMove`: the first open cell where the computer would win at once. */
  function WinningMove(b: seq<char>): int
    requires IsBoard(b)
  {
    FirstCompleting(b, COMPUTER_PLAYER, COMPUTER_WINS, 0)
  }

  /** `getBlockingMove`: the first open cell where the human would win at once. */
  function BlockingMove(b: seq<char>): int
    requires IsBoard(b)
  {
    FirstCompleting(b, HUMAN_PLAYER, HUMAN_WINS, 0)
  }

  /**
   * The moves `getComputerMove` may return on board b at the given level: an
   * open cell in range, which must be the winning move when Harder or Expert
   * has one, and else the blocking move when Expert has one. Anything else is
   * left to the random choice.
   */
  predicate ComputerMoveAllowed(b: seq<char>, level: DifficultyLevel, move: int)
    requires IsBoard(b)
    ensures ComputerMoveAllowed(b, level, move) ==> 0 <= move < BOARD_SIZE && b[move] == OPEN_SPOT
    ensures ComputerMoveAllowed(b, level, move) && level != Easy && WinningMove(b) != -1 ==>
              Winner(b[move := COMPUTER_PLAYER]) == COMPUTER_WINS
    ensures ComputerMoveAllowed(b, level, move) && level == Expert && WinningMove(b) == -1 && BlockingMove(b) != -1 ==>
              Winner(b[move := HUMAN_PLAYER]) == HUMAN_WINS
  {
    && 0 <= move < BOARD_SIZE
    && b[move] == OPEN_SPOT
    && match level
       case Easy => true
       case Harder => WinningMove(b) != -1 ==> move == WinningMove(b)
       case Expert =>
         if WinningMove(b) != -1 then move == WinningMove(b)
         else BlockingMove(b) != -1 ==> move == BlockingMove(b)
  }

  /** With an open cell on the board, every level has a move to make. */
  lemma ComputerMoveExists(b: seq<char>, level: DifficultyLevel)
    requires IsBoard(b) && HasOpenSpot(b)
    ensures exists m :: ComputerMoveAllowed(b, level, m)
  {
    var open :| 0 <= open < |b| && b[open] == OPEN_SPOT;
    var w, k := WinningMove(b), BlockingMove(b);
    if w != -1 {
      assert ComputerMoveAllowed(b, level, w);
    } else if k != -1 && level == Expert {
      assert ComputerMoveAllowed(b, level, k);
    } else {
      assert ComputerMoveAllowed(b, level, open);
    }
  }

  /** Expert takes its own win before it blocks: on [O,O,_,X,X,_,_,_,_] it plays 2, never 5. */
  lemma ExpertPrefersWinning(m: int)
    requires ComputerMoveAllowed(['O', 'O', ' ', 'X', 'X', ' ', ' ', ' ', ' '], Expert, m)
    ensures m == 2
  {
    var b := ['O', 'O', ' ', 'X', 'X', ' ', ' ', ' ', ' '];
    assert Winner(b[2 := COMPUTER_PLAYER]) == COMPUTER_WINS;
    assert WinningMove(b) == 2;
  }

  /** With no win available, Expert blocks: on [X,X,_,_,_,_,_,_,_] it plays 2. */
  lemma ExpertBlocks(m: int)
    requires ComputerMoveAllowed(['X', 'X', ' ', ' ', ' ', ' ', ' ', ' ', ' '], Expert, m)
    ensures m == 2
  {
    var b := ['X', 'X', ' ', ' ', ' ', ' ', ' ', ' ', ' '];
    NoWinForComputer(b);
    BlockAtTwo(b);
  }

  /** On a board whose top row is X,X,_ the first blocking cell is 2. */
  lemma BlockAtTwo(b: seq<char>)
    requires IsBoard(b) && b[0] == HUMAN_PLAYER && b[1] == HUMAN_PLAYER && b[2] == OPEN_SPOT
    ensures BlockingMove(b) == 2
  {
    assert Line(b[2 := HUMAN_PLAYER], 0, 1, 2, HUMAN_PLAYER);
    assert FirstCompleting(b, HUMAN_PLAYER, HUMAN_WINS, 2) == 2;
    assert FirstCompleting(b, HUMAN_PLAYER, HUMAN_WINS, 1) == 2;
  }

  /** Harder never blocks: on [X,X,_,_,_,_,_,_,_] any open cell, such as 5, may be chosen. */
  lemma HarderDoesNotBlock()
    ensures ComputerMoveAllowed(['X', 'X', ' ', ' ', ' ', ' ', ' ', ' ', ' '], Harder, 5)
    ensures BlockingMove(['X', 'X', ' ', ' ', ' ', ' ', ' ', ' ', ' ']) == 2
  {
    var b := ['X', 'X', ' ', ' ', ' ', ' ', ' ', ' ', ' '];
    NoWinForComputer(b);
    BlockAtTwo(b);
  }

  /**
   * A move completes only lines of the mark it writes: if no line of q was
   * complete before, writing a different mark p on an open cell completes
   * none. So from a game that goes on, the human's move never makes the
   * computer the winner, and the computer's never makes the human one.
   */
  lemma MoveCompletesOnlyOwnLines(b: seq<char>, pos: int, p: char, q: char)
    requires IsBoard(b) && 0 <= pos < BOARD_SIZE && b[pos] == OPEN_SPOT
    requires p != q && q != OPEN_SPOT && !HasLine(b, q)
    ensures !HasLine(b[pos := p], q)
  {
    var c := b[pos := p];
    assert forall i :: 0 <= i < |c| && c[i] == q ==> b[i] == q;
  }

  /** Writing into an open cell keeps every line that was already there. */
  lemma MoveKeepsLines(b: seq<char>, pos: int, p: char, q: char)
    requires IsBoard(b) && 0 <= pos < BOARD_SIZE && b[pos] == OPEN_SPOT
    requires q != OPEN_SPOT && HasLine(b, q)
    ensures HasLine(b[pos := p], q)
  {
    var c := b[pos := p];
    assert forall i :: 0 <= i < |b| && b[i] == q ==> c[i] == q;
  }

  /** From a game that goes on, a human move never lets the computer win, and the reverse. */
  lemma MoverCannotLoseByMoving(b: seq<char>, pos: int)
    requires IsBoard(b) && 0 <= pos < BOARD_SIZE && b[pos] == OPEN_SPOT && Winner(b) == CONTINUES
    ensures Winner(b[pos := HUMAN_PLAYER]) != COMPUTER_WINS
    ensures Winner(b[pos := COMPUTER_PLAYER]) != HUMAN_WINS
  {
    MoveCompletesOnlyOwnLines(b, pos, HUMAN_PLAYER, COMPUTER_PLAYER);
    MoveCompletesOnlyOwnLines(b, pos, COMPUTER_PLAYER, HUMAN_PLAYER);
  }

  /** A board without any 'O' gives the computer no immediate win: one 'O' never completes a line. */
  lemma NoWinForComputer(b: seq<char>)
    requires IsBoard(b)
    requires forall i :: 0 <= i < |b| ==> b[i] != COMPUTER_PLAYER
    ensures WinningMove(b) == -1
  {
    forall j | 0 <= j < BOARD_SIZE && b[j] == OPEN_SPOT
      ensures Winner(b[j := COMPUTER_PLAYER]) != COMPUTER_WINS
    {
      var c := b[j := COMPUTER_PLAYER];
      assert forall i :: 0 <= i < |c| && i != j ==> c[i] != COMPUTER_PLAYER;
      assert !HasLine(c, COMPUTER_PLAYER);
    }
  }

  /** `TicTacToeGame`: the board, updated in place, and the current difficulty level. */
  class TicTacToeGame {
    const mBoard: array<char>
    var mDifficultyLevel: DifficultyLevel

    ghost predicate Valid()
      reads this
    {
      mBoard.Length == BOARD_SIZE
    }

    /** A new engine starts with an open board at level Expert. */
    constructor ()
      ensures Valid() && fresh(mBoard)
      ensures mBoard[..] == EmptyBoard()
      ensures mDifficultyLevel == Expert
    {
      mBoard := new char[BOARD_SIZE](_ => OPEN_SPOT);
      mDifficultyLevel := Expert;
    }

    /** `clearBoard`: every cell becomes open. */
    method ClearBoard()
      requires Valid()
      modifies mBoard
      ensures mBoard[..] == EmptyBoard()
    {
      for i := 0 to BOARD_SIZE
        invariant forall j :: 0 <= j < i ==> mBoard[j] == OPEN_SPOT
      {
        mBoard[i] := OPEN_SPOT;
      }
    }

    /**
     * `setMove`: the one guarded write to the board. It succeeds exactly when
     * the location is on the board and open; then only that cell changes.
     */
    method SetMove(player: char, location: int) returns (ok: bool)
      requires Valid()
      modifies mBoard
      ensures ok <==> 0 <= location < BOARD_SIZE && old(mBoard[location]) == OPEN_SPOT
      ensures ok ==> mBoard[..] == old(mBoard[..])[location := player]
      ensures !ok ==> mBoard[..] == old(mBoard[..])
    {
      if 0 <= location < BOARD_SIZE && mBoard[location] == OPEN_SPOT {
        mBoard[location] := player;
        ok := true;
      } else {
        ok := false;
      }
    }

    function GetDifficultyLevel(): (level: DifficultyLevel)
      reads this
      ensures level == mDifficultyLevel
    {
      mDifficultyLevel
    }

    method SetDifficultyLevel(difficultyLevel: DifficultyLevel)
      modifies this
      ensures mDifficultyLevel == difficultyLevel
    {
      mDifficultyLevel := difficultyLevel;
    }

    /** `checkForWinner`: scans rows, columns and diagonals, then the open cells; reads only. */
    method CheckForWinner() returns (r: int)
      requires Valid()
      ensures r == Winner(mBoard[..])
    {
      ghost var b := mBoard[..];
      for i := 0 to 3
        invariant i > 0 ==> !Line(b, 0, 1, 2, HUMAN_PLAYER) && !Line(b, 0, 1, 2, COMPUTER_PLAYER)
        invariant i > 1 ==> !Line(b, 3, 4, 5, HUMAN_PLAYER) && !Line(b, 3, 4, 5, COMPUTER_PLAYER)
        invariant i > 2 ==> !Line(b, 6, 7, 8, HUMAN_PLAYER) && !Line(b, 6, 7, 8, COMPUTER_PLAYER)
      {
        var row := 3 * i;
        if mBoard[row] == HUMAN_PLAYER && mBoard[row + 1] == HUMAN_PLAYER && mBoard[row + 2] == HUMAN_PLAYER {
          assert Line(b, row, row + 1, row + 2, HUMAN_PLAYER);
          return HUMAN_WINS;
        }
        if mBoard[row] == COMPUTER_PLAYER && mBoard[row + 1] == COMPUTER_PLAYER && mBoard[row + 2] == COMPUTER_PLAYER {
          assert Line(b, row, row + 1, row + 2, COMPUTER_PLAYER);
          return COMPUTER_WINS;
        }
      }
      for i := 0 to 3
        invariant i > 0 ==> !Line(b, 0, 3, 6, HUMAN_PLAYER) && !Line(b, 0, 3, 6, COMPUTER_PLAYER)
        invariant i > 1 ==> !Line(b, 1, 4, 7, HUMAN_PLAYER) && !Line(b, 1, 4, 7, COMPUTER_PLAYER)
        invariant i > 2 ==> !Line(b, 2, 5, 8, HUMAN_PLAYER) && !Line(b, 2, 5, 8, COMPUTER_PLAYER)
      {
        if mBoard[i] == HUMAN_PLAYER && mBoard[i + 3] == HUMAN_PLAYER && mBoard[i + 6] == HUMAN_PLAYER {
          assert Line(b, i, i + 3, i + 6, HUMAN_PLAYER);
          return HUMAN_WINS;
        }
        if mBoard[i] == COMPUTER_PLAYER && mBoard[i + 3] == COMPUTER_PLAYER && mBoard[i + 6] == COMPUTER_PLAYER {
          assert Line(b, i, i + 3, i + 6, COMPUTER_PLAYER);
          return COMPUTER_WINS;
        }
      }
      if (mBoard[0] == HUMAN_PLAYER && mBoard[4] == HUMAN_PLAYER && mBoard[8] == HUMAN_PLAYER) ||
         (mBoard[2] == HUMAN_PLAYER && mBoard[4] == HUMAN_PLAYER && mBoard[6] == HUMAN_PLAYER)
      {
        return HUMAN_WINS;
      }
      if (mBoard[0] == COMPUTER_PLAYER && mBoard[4] == COMPUTER_PLAYER && mBoard[8] == COMPUTER_PLAYER) ||
         (mBoard[2] == COMPUTER_PLAYER && mBoard[4] == COMPUTER_PLAYER && mBoard[6] == COMPUTER_PLAYER)
      {
        return COMPUTER_WINS;
      }
      for i := 0 to BOARD_SIZE
        invariant forall k :: 0 <= k < i ==> b[k] != OPEN_SPOT
      {
        if mBoard[i] == OPEN_SPOT {
          return CONTINUES;
        }
      }
      return DRAW;
    }

    /** `getBoardOccupant`: the stored cell, or an open spot for a location off the board. */
    function GetBoardOccupant(location: int): (c: char)
      requires Valid()
      reads this, mBoard
      ensures 0 <= location < BOARD_SIZE ==> c == mBoard[..][location]
      ensures !(0 <= location < BOARD_SIZE) ==> c == OPEN_SPOT
    {
      if 0 <= location < BOARD_SIZE then mBoard[location] else OPEN_SPOT
    }

    /**
     * `getRandomMove`: the source draws indices at random until one is open;
     * here any open cell may be chosen. An open cell must exist, or the
     * source's loop never ends.
     */
    method GetRandomMove() returns (move: int)
      requires Valid() && HasOpenSpot(mBoard[..])
      ensures 0 <= move < BOARD_SIZE && mBoard[move] == OPEN_SPOT
    {
      assert exists k :: 0 <= k < BOARD_SIZE && mBoard[..][k] == OPEN_SPOT;
      move :| 0 <= move < BOARD_SIZE && mBoard[move] == OPEN_SPOT;
    }

    /**
     * `getWinningMove` (p = 'O', target 3) and `getBlockingMove` (p = 'X',
     * target 2): try each open cell in index order, write p, run the win/draw
     * check and restore the cell.
     */
    method FindCompletingMove(p: char, target: int) returns (move: int)
      requires Valid()
      modifies mBoard
      ensures mBoard[..] == old(mBoard[..])
      ensures move == FirstCompleting(old(mBoard[..]), p, target, 0)
    {
      ghost var b := mBoard[..];
      for i := 0 to BOARD_SIZE
        invariant mBoard[..] == b
        invariant FirstCompleting(b, p, target, 0) == FirstCompleting(b, p, target, i)
      {
        if mBoard[i] == OPEN_SPOT {
          mBoard[i] := p;
          assert mBoard[..] == b[i := p];
          var w := CheckForWinner();
          mBoard[i] := OPEN_SPOT;
          assert mBoard[..] == b;
          if w == target {
            return i;
          }
        }
      }
      return -1;
    }

    method GetWinningMove() returns (move: int)
      requires Valid()
      modifies mBoard
      ensures mBoard[..] == old(mBoard[..])
      ensures move == WinningMove(old(mBoard[..]))
    {
      move := FindCompletingMove(COMPUTER_PLAYER, COMPUTER_WINS);
    }

    method GetBlockingMove() returns (move: int)
      requires Valid()
      modifies mBoard
      ensures mBoard[..] == old(mBoard[..])
      ensures move == BlockingMove(old(mBoard[..]))
    {
      move := FindCompletingMove(HUMAN_PLAYER, HUMAN_WINS);
    }

    /**
     * `getComputerMove`: Easy picks at random; Harder wins if it can, else
     * picks at random; Expert wins, else blocks, else picks at random. The
     * board is left as it was found.
     */
    method GetComputerMove() returns (move: int)
      requires Valid() && HasOpenSpot(mBoard[..])
      modifies mBoard
      ensures mBoard[..] == old(mBoard[..])
      ensures ComputerMoveAllowed(old(mBoard[..]), mDifficultyLevel, move)
    {
      match mDifficultyLevel
      case Easy =>
        move := GetRandomMove();
      case Harder =>
        move := GetWinningMove();
        if move == -1 {
          move := GetRandomMove();
        }
      case Expert =>
        move := GetWinningMove();
        if move == -1 {
          move := GetBlockingMove();
        }
        if move == -1 {
          move := GetRandomMove();
        }
    }
  }
}
