/**
 * The online match coordinator (`FirebaseGameRepository`). The remote store is
 * a map from game id to match document; each suspend function is one atomic
 * step that reads the map, validates, and writes back one whole document (or
 * nothing, on failure).
 */
module GameRepository {
  import opened Types
  import opened OnlineGames

  /** The document stored under a key, if any. */
  function Lookup(games: map<string, OnlineGame>, gameId: string): (r: Option<OnlineGame>)
    ensures r.Some? <==> gameId in games
    ensures r.Some? ==> r.value == games[gameId]
  {
    if gameId in games then Some(games[gameId]) else None
  }

  /**
   * What every document written by this repository satisfies: it is stored
   * under its own id; player 1 ("X") is present and player 2, when present,
   * plays "O"; the turn belongs to one of them; a waiting game has a blank
   * board and no second player; a game in play has a second player, no
   * complete line and a blank cell; a finished game records exactly what
   * `checkWinner` finds on its board.
   */
  predicate StoredGameValid(id: string, g: OnlineGame)
  {
    && g.gameId == id
    && WellFormedBoard(g.board)
    && g.player1.Some? && g.player1.value.symbol == SYMBOL_X
    && (g.player2.Some? ==> g.player2.value.symbol == SYMBOL_O)
    && (g.currentTurn == g.player1.value.playerId || (g.player2.Some? && g.currentTurn == g.player2.value.playerId))
    && (g.status == WAITING ==> g.board == OnlineGames.EmptyBoard() && g.player2.None? && g.winner.None?)
    && (g.status == PLAYING ==> g.player2.Some? && CheckWinner(g.board).None? && BLANK in g.board && g.winner.None?)
    && (g.status == FINISHED ==> g.winner == CheckWinner(g.board) && (g.winner.Some? || BLANK !in g.board))
  }

  /** A successful join keeps a stored document valid. */
  lemma JoinKeepsValid(id: string, game: OnlineGame, playerName: string, playerId: string)
    requires StoredGameValid(id, game)
    requires JoinOutcome(Some(game), playerName, playerId).Success?
    ensures StoredGameValid(id, JoinOutcome(Some(game), playerName, playerId).value)
  {
    var after := JoinOutcome(Some(game), playerName, playerId).value;
    assert forall i :: 0 <= i < 8 ==> !Complete(after.board, i);
    assert after.board[0] == BLANK;
  }

  /** A successful move keeps a stored document valid; in particular the turn stays with one of the two players. */
  lemma MoveKeepsValid(id: string, game: OnlineGame, position: int, playerId: string)
    requires StoredGameValid(id, game)
    requires MoveOutcome(game, position, playerId).Success?
    ensures StoredGameValid(id, MoveOutcome(game, position, playerId).value)
  {
    var after := MoveOutcome(game, position, playerId).value;
    assert WellFormedBoard(after.board) by {
      forall i | 0 <= i < 9 ensures after.board[i] in {BLANK, SYMBOL_X, SYMBOL_O} {
        if i != position {
          assert after.board[i] == game.board[i];
        }
      }
    }
  }

  /**
   * `makeMove` against the whole store: a missing game fails with "not
   * found", anything else is decided by `MoveOutcome` on the stored document.
   */
  function StoredMove(games: map<string, OnlineGame>, gameId: string, position: int, playerId: string): (r: Result<OnlineGame, GameError>)
    requires gameId in games ==> |games[gameId].board| == 9
    ensures gameId !in games ==> r == Failure(GameNotFound)
    ensures gameId in games ==> r == MoveOutcome(games[gameId], position, playerId)
  {
    if gameId !in games then Failure(GameNotFound) else MoveOutcome(games[gameId], position, playerId)
  }

  /**
   * In a stored game the only line a move can complete is the mover's, so the
   * winner `makeMove` records is always the symbol of the player who moved.
   */
  lemma StoredWinnerIsMover(id: string, game: OnlineGame, position: int, playerId: string)
    requires StoredGameValid(id, game)
    requires MoveOutcome(game, position, playerId).Success?
    ensures var after := MoveOutcome(game, position, playerId).value;
            after.winner.Some? ==> after.winner.value == MoverSymbol(game, playerId)
  {
    MoverIsOnlyNewWinner(game, position, playerId);
  }

  /** Every document in the store is valid under its key. */
  predicate AllStoredValid(games: map<string, OnlineGame>)
  {
    forall k :: k in games ==> StoredGameValid(k, games[k])
  }

  /** Storing a valid document keeps every stored document valid. */
  lemma StoreKeepsValid(games: map<string, OnlineGame>, id: string, g: OnlineGame)
    requires AllStoredValid(games) && StoredGameValid(id, g)
    ensures AllStoredValid(games[id := g])
  {
  }

  /** The ids of the games still waiting for an opponent. */
  function WaitingIds(games: map<string, OnlineGame>): set<string>
  {
    set id | id in games && games[id].status == WAITING
  }

  /** Visiting one more key adds it to the visited waiting ids exactly when its game is waiting. */
  lemma WaitingStep(games: map<string, OnlineGame>, remaining: set<string>, id: string)
    requires id in remaining && remaining <= games.Keys
    ensures games[id].status == WAITING ==>
              && WaitingIds(games) - (remaining - {id}) == (WaitingIds(games) - remaining) + {id}
              && id !in WaitingIds(games) - remaining
    ensures games[id].status != WAITING ==> WaitingIds(games) - (remaining - {id}) == WaitingIds(games) - remaining
  {
  }

  /** Newest first: creation times never increase along the list. */
  predicate SortedNewestFirst(s: seq<OnlineGame>)
  {
    forall i, j :: 0 <= i < j < |s| ==> s[i].createdAt >= s[j].createdAt
  }

  /** Putting x in front of a sorted list whose entries are no newer keeps it sorted. */
  lemma PrependSorted(x: OnlineGame, rest: seq<OnlineGame>)
    requires SortedNewestFirst(rest)
    requires forall k :: 0 <= k < |rest| ==> rest[k].createdAt <= x.createdAt
    ensures SortedNewestFirst([x] + rest)
  {
    var r := [x] + rest;
    forall i, j | 0 <= i < j < |r| ensures r[i].createdAt >= r[j].createdAt {
      if i > 0 {
        assert r[i] == rest[i - 1] && r[j] == rest[j - 1];
      } else {
        assert r[j] == rest[j - 1];
      }
    }
  }

  /** Inserts g into a list sorted newest first, after the entries created at the same time. */
  function InsertNewestFirst(g: OnlineGame, s: seq<OnlineGame>): (r: seq<OnlineGame>)
    requires SortedNewestFirst(s)
    ensures SortedNewestFirst(r)
    ensures multiset(r) == multiset(s) + multiset{g}
    ensures |r| == |s| + 1
  {
    if s == [] then [g]
    else if g.createdAt > s[0].createdAt then
      PrependSorted(g, s);
      [g] + s
    else
      assert s == [s[0]] + s[1..];
      var rest := InsertNewestFirst(g, s[1..]);
      InsertBound(g, s, rest);
      PrependSorted(s[0], rest);
      [s[0]] + rest
  }

  /** Every entry of the insertion into the tail is no newer than the head, when g is not newer either. */
  lemma InsertBound(g: OnlineGame, s: seq<OnlineGame>, rest: seq<OnlineGame>)
    requires SortedNewestFirst(s) && s != [] && g.createdAt <= s[0].createdAt
    requires multiset(rest) == multiset(s[1..]) + multiset{g}
    ensures forall k :: 0 <= k < |rest| ==> rest[k].createdAt <= s[0].createdAt
  {
    forall k | 0 <= k < |rest| ensures rest[k].createdAt <= s[0].createdAt {
      assert rest[k] in multiset(rest);
      if rest[k] != g {
        assert rest[k] in multiset(s[1..]);
        var j :| 0 <= j < |s[1..]| && s[1..][j] == rest[k];
        assert s[j + 1] == rest[k];
      }
    }
  }

  /** `sortedByDescending { it.createdAt }`: the same games, newest first. */
  function SortNewestFirst(s: seq<OnlineGame>): (r: seq<OnlineGame>)
    ensures SortedNewestFirst(r)
    ensures multiset(r) == multiset(s)
    ensures |r| == |s|
  {
    if s == [] then []
    else
      assert s == s[..|s| - 1] + [s[|s| - 1]];
      InsertNewestFirst(s[|s| - 1], SortNewestFirst(s[..|s| - 1]))
  }

  /** Sorting neither adds nor drops a game. */
  lemma SortKeepsMembers(s: seq<OnlineGame>)
    ensures forall g :: g in SortNewestFirst(s) <==> g in s
  {
    var r := SortNewestFirst(s);
    forall g ensures g in r <==> g in s {
      assert g in r <==> g in multiset(r);
      assert g in s <==> g in multiset(s);
    }
  }

  /** The longest key's length bounds every key. */
  ghost function MaxKeyLength(keys: set<string>): (n: nat)
    ensures forall k :: k in keys ==> |k| <= n
    decreases keys
  {
    if keys == {} then 0
    else
      var k :| k in keys;
      var rest := MaxKeyLength(keys - {k});
      if |k| > rest then |k| else rest
  }

  /** The store can always hand out a key it does not hold yet. */
  lemma FreshKeyExists(keys: set<string>)
    ensures exists k: string :: k !in keys
  {
    var k := seq(MaxKeyLength(keys) + 1, _ => 'k');
    assert k !in keys;
  }

  class FirebaseGameRepository {
    var games: map<string, OnlineGame>

    ghost predicate Valid()
      reads this
    {
      AllStoredValid(games)
    }

    constructor ()
      ensures Valid() && games == map[]
    {
      games := map[];
    }

    /**
     * `createGame`: stores a new waiting game under a key the store did not
     * hold, created by the caller as player 1 ("X") with the first turn.
     */
    method CreateGame(playerName: string, playerId: string, createdAt: int) returns (game: OnlineGame)
      requires Valid()
      modifies this
      ensures Valid()
      ensures game.gameId !in old(games)
      ensures game == NewGame(game.gameId, playerName, playerId, createdAt)
      ensures games == old(games)[game.gameId := game]
    {
      FreshKeyExists(games.Keys);
      var gameId :| gameId !in games;
      var player1 := Player(playerId, playerName, SYMBOL_X);
      game := OnlineGame(gameId, playerId, Some(player1), None, OnlineGames.EmptyBoard(), playerId, WAITING, None, createdAt);
      games := games[gameId := game];
    }

    /**
     * `joinGame`: fails, writing nothing, when the game is missing, not
     * waiting or full; otherwise stores the game with the joiner as player 2
     * ("O") and in play.
     */
    method JoinGame(gameId: string, playerName: string, playerId: string) returns (r: Result<OnlineGame, GameError>)
      requires Valid()
      modifies this
      ensures Valid()
      ensures r == JoinOutcome(Lookup(old(games), gameId), playerName, playerId)
      ensures r.Success? ==> r.value.gameId == gameId && games == old(games)[gameId := r.value]
      ensures r.Failure? ==> games == old(games)
    {
      if gameId !in games {
        return Failure(GameNotFound);
      }
      var game := games[gameId];
      if game.status != WAITING {
        return Failure(GameNotWaiting);
      }
      if game.player2.Some? {
        return Failure(GameFull);
      }
      var player2 := Player(playerId, playerName, SYMBOL_O);
      var updatedGame := game.(player2 := Some(player2), status := PLAYING);
      JoinKeepsValid(gameId, game, playerName, playerId);
      games := games[gameId := updatedGame];
      r := Success(updatedGame);
    }

    /**
     * `makeMove`: fails, writing nothing, when the game is missing or
     * `MoveOutcome` rejects the move; otherwise stores the moved document.
     */
    method MakeMove(gameId: string, position: int, playerId: string) returns (r: Result<bool, GameError>)
      requires Valid()
      modifies this
      ensures Valid()
      ensures var outcome := StoredMove(old(games), gameId, position, playerId);
              && (r.Success? <==> outcome.Success?)
              && (r.Success? ==> r.value && games == old(games)[gameId := outcome.value])
              && (r.Failure? ==> r.error == outcome.error && games == old(games))
    {
      if gameId !in games {
        return Failure(GameNotFound);
      }
      var game := games[gameId];
      ghost var outcome := MoveOutcome(game, position, playerId);
      if game.status != PLAYING {
        return Failure(GameNotPlaying);
      }
      if game.currentTurn != playerId {
        return Failure(NotYourTurn);
      }
      if !(0 <= position < |game.board|) {
        assert outcome == Failure(PositionOutOfRange);
        return Failure(PositionOutOfRange);
      }
      if game.board[position] != BLANK {
        assert outcome == Failure(PositionOccupied);
        return Failure(PositionOccupied);
      }
      var isPlayer1 := game.player1.Some? && playerId == game.player1.value.playerId;
      var playerSymbol := if isPlayer1 then SYMBOL_X else SYMBOL_O;
      var newBoard := game.board;
      newBoard := newBoard[position := playerSymbol];
      var nextTurn := if isPlayer1 then (if game.player2.Some? then game.player2.value.playerId else "")
                      else (if game.player1.Some? then game.player1.value.playerId else "");
      var winner := CheckWinner(newBoard);
      var newStatus := if winner.Some? || BLANK !in newBoard then FINISHED else PLAYING;
      var updatedGame := game.(board := newBoard, currentTurn := nextTurn, status := newStatus, winner := winner);
      assert updatedGame == outcome.value;
      MoveKeepsValid(gameId, game, position, playerId);
      StoreKeepsValid(games, gameId, updatedGame);
      games := games[gameId := updatedGame];
      r := Success(true);
    }

    /** `leaveGame`: removes the game; removing a missing key is no error. */
    method LeaveGame(gameId: string) returns (r: Result<bool, GameError>)
      requires Valid()
      modifies this
      ensures Valid()
      ensures r == Success(true)
      ensures games == old(games) - {gameId}
    {
      games := games - {gameId};
      r := Success(true);
    }

    /**
     * One snapshot of `getAvailableGames`: every waiting game, each once,
     * newest first.
     */
    method GetAvailableGames() returns (list: seq<OnlineGame>)
      requires Valid()
      ensures forall g :: g in list ==> g.status == WAITING && g.gameId in games && games[g.gameId] == g
      ensures forall id :: id in games && games[id].status == WAITING ==> games[id] in list
      ensures |list| == |WaitingIds(games)|
      ensures SortedNewestFirst(list)
    {
      var remaining := games.Keys;
      var collected: seq<OnlineGame> := [];
      while remaining != {}
        invariant remaining <= games.Keys
        invariant forall g :: g in collected ==>
                    g.status == WAITING && g.gameId in games && games[g.gameId] == g && g.gameId !in remaining
        invariant forall id :: id in games && id !in remaining && games[id].status == WAITING ==> games[id] in collected
        invariant |collected| == |WaitingIds(games) - remaining|
        decreases remaining
      {
        var id :| id in remaining;
        WaitingStep(games, remaining, id);
        remaining := remaining - {id};
        if games[id].status == WAITING {
          collected := collected + [games[id]];
        }
      }
      list := SortNewestFirst(collected);
      SortKeepsMembers(collected);
    }
  }
}
