/**
 * Positions and the game's history stack (chessboard/position.go,
 * chessboard/game.go).
 *
 * A position holds its board as a value, so copying a position copies the
 * board. `legalMoves` is the per-position cache of the legal move list:
 * `None` until it is computed.
 *
 * A game keeps the current position, every position reached (the current
 * one last) and the moves played. In the source the history holds pointers
 * and the current position is the last of them; here the history holds
 * values and the invariant `Valid` says the current position is the last
 * entry. A write to the current position (the legal-move cache) therefore
 * writes the last history entry too.
 */
module Games {
  import opened Outcomes
  import opened Boards
  import Moves
  import Attacks

  datatype CastleRights = CastleRights(
    whiteKingSide: bool,
    whiteQueenSide: bool,
    blackKingSide: bool,
    blackQueenSide: bool)

  datatype Position = Position(
    board: BoardState,
    turn: int,
    castleRights: CastleRights,
    enPassantSquare: bv8,
    halfMoveClock: int,
    moveCount: int,
    inCheck: bool,
    legalMoves: Option<seq<Moves.Move>>)

  /** `Position.Move` computes the position after a move; its code is not
      part of this model, so it is a parameter wherever a move is played. */
  type Successor = (Position, Moves.Move) -> Position

  class Game {
    var tables: Attacks.PrecomputedData
    var position: Position
    var history: seq<Position>
    var moves: seq<Moves.Move>

    /** The current position is the last one reached, and there is one
        position more than moves played. */
    predicate Valid()
      reads this
    {
      |history| == |moves| + 1 && history[|history| - 1] == position
    }

    /** A game starting from `p`: its history is exactly `p`. */
    constructor (tables: Attacks.PrecomputedData, p: Position)
      ensures Valid()
      ensures this.tables == tables && position == p && history == [p] && moves == []
    {
      this.tables := tables;
      position := p;
      history := [p];
      moves := [];
    }

    /** `*g = *other`: copies the other game's fields into this one. Positions,
        the history and the move list are values, so the copy shares
        nothing that a later `Move` or `UndoMove` could change. */
    method CopyFrom(other: Game)
      modifies this
      requires other.Valid()
      ensures Valid()
      ensures tables == other.tables && position == other.position
      ensures history == other.history && moves == other.moves
    {
      tables := other.tables;
      position := other.position;
      history := other.history;
      moves := other.moves;
    }

    /** `Position()`: a copy of the current position. */
    function Current(): (p: Position)
      reads this
      requires Valid()
      ensures p == history[|history| - 1]
    {
      position
    }

    /** Plays `m`: the position after it becomes current and is pushed on
        the history, and `m` is pushed on the move list. */
    method Move(m: Moves.Move, successor: Successor)
      modifies this
      requires Valid()
      ensures Valid()
      ensures position == successor(old(position), m)
      ensures history == old(history) + [position]
      ensures moves == old(moves) + [m]
      ensures tables == old(tables)
    {
      var pos := successor(position, m);
      position := pos;
      history := history + [position];
      moves := moves + [m];
    }

    /** Takes back the last move: pops the move list and the history and
        makes the new last entry current. The source indexes the history at
        its new length - 1, so it needs two entries. */
    method UndoMove()
      modifies this
      requires Valid() && |history| >= 2
      ensures Valid()
      ensures moves == old(moves)[..|old(moves)| - 1]
      ensures history == old(history)[..|old(history)| - 1]
      ensures position == old(history)[|old(history)| - 2]
      ensures tables == old(tables)
    {
      moves := moves[..|moves| - 1];
      history := history[..|history| - 1];
      position := history[|history| - 1];
    }
  }

  /** `g` holds the same tables, position, history and move list as in the
      earlier state. */
  twostate predicate Restored(g: Game)
    reads g
  {
    g.tables == old(g.tables) && g.position == old(g.position)
    && g.history == old(g.history) && g.moves == old(g.moves)
  }

  /** Playing a move and taking it back restores the position, the history
      and the move list. */
  method MoveThenUndo(g: Game, m: Moves.Move, successor: Successor)
    modifies g
    requires g.Valid()
    ensures g.Valid()
    ensures Restored(g)
  {
    g.Move(m, successor);
    g.UndoMove();
  }
}
