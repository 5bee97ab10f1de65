/**
  Single chess pieces: the integer displacement vector, the six piece kinds,
  each kind's legality test on a displacement, the factory that turns a type
  name into a kind, and the piece object whose `Move` applies a legal
  displacement to its own position.
*/
module Pieces {
  import opened Options

  /** An integer pair; for a piece position `x` is the row and `y` the column. */
  datatype Vec2 = Vec2(x: int, y: int)

  function Add(a: Vec2, b: Vec2): Vec2 { Vec2(a.x + b.x, a.y + b.y) }

  function Sub(a: Vec2, b: Vec2): Vec2 { Vec2(a.x - b.x, a.y - b.y) }

  function Neg(a: Vec2): Vec2 { Vec2(-a.x, -a.y) }

  /**
    The square of `mag`. The program compares `sqrt(x*x + y*y)` with a bound;
    since the square root is monotone on non-negative numbers, comparing the
    integer square with the squared bound gives the same answer.
  */
  function SquaredMag(d: Vec2): int { d.x * d.x + d.y * d.y }

  datatype Color = Black | White

  /** The dynamic type of a piece; the rook is called a castle throughout. */
  datatype Kind = Pawn | Castle | Knight | Bishop | Queen | King

  /** The squared magnitude of the knight's reference vector (2, 3). */
  const KnightMoveSquared := SquaredMag(Vec2(2, 3))

  /** The displacement test of each kind's `move` override. */
  predicate Legal(k: Kind, d: Vec2) {
    match k
    case Pawn => SquaredMag(d) <= 1
    case Castle => (d.x != 0 && d.y == 0) || (d.y != 0 && d.x == 0)
    // "at most the reference magnitude plus a tolerance, or at least it minus
    // the tolerance": the two ranges overlap, so every magnitude passes
    case Knight => SquaredMag(d) <= KnightMoveSquared || SquaredMag(d) >= KnightMoveSquared
    case Bishop => d.x == d.y
    case Queen => d.x == d.y || (d.x != 0 && d.y == 0) || (d.y != 0 && d.x == 0)
    case King => d.x == d.y || (d.x != 0 && d.y == 0) || (d.y != 0 && d.x == 0)
  }

  /** The name each kind reports from `get_type`. */
  function TypeName(k: Kind): string {
    match k
    case Pawn => "pawn"
    case Castle => "castle"
    case Knight => "knight"
    case Bishop => "bishop"
    case Queen => "queen"
    case King => "king"
  }

  /**
    The character each kind's constructors store in the piece's `model`
    string; the kind never changes, so neither does this character.
  */
  function ModelChar(k: Kind): char {
    match k
    case Pawn => 'P'
    case Castle => 'C'
    case Knight => 'k'
    case Bishop => 'B'
    case Queen => 'Q'
    case King => 'K'
  }

  /** No two kinds report the same `get_type` name: the name identifies the kind. */
  lemma TypeNamesDistinct(k: Kind, k': Kind)
    ensures TypeName(k) == TypeName(k') <==> k == k'
  {
  }

  /**
    No two kinds draw the same character (the knight's 'k' and the king's
    'K' differ by case), so the drawn board identifies each kind.
  */
  lemma ModelCharsDistinct(k: Kind, k': Kind)
    ensures ModelChar(k) == ModelChar(k') <==> k == k'
  {
  }

  /**
    `pieceFactory`: the kind named by `pieceType`, or None where the program
    throws "Invalid piece given". A name is accepted exactly when it is the
    `get_type` name of some kind, and then it yields that kind.
  */
  function PieceFactory(pieceType: string): (r: Option<Kind>)
    ensures forall k :: r == Some(k) <==> TypeName(k) == pieceType
  {
    if pieceType == "pawn" then Some(Pawn)
    else if pieceType == "castle" then Some(Castle)
    else if pieceType == "knight" then Some(Knight)
    else if pieceType == "bishop" then Some(Bishop)
    else if pieceType == "queen" then Some(Queen)
    else if pieceType == "king" then Some(King)
    else None
  }

  /** The value-level view of a piece. */
  datatype PieceInfo = PieceInfo(pos: Vec2, color: Color, kind: Kind)

  /** A piece; only `pos` and `color` are ever assigned after construction. */
  class Piece {
    var pos: Vec2
    var color: Color
    const kind: Kind

    /** The subclass constructors taking a square and a colour. */
    constructor (x: int, y: int, c: Color, k: Kind)
      ensures pos == Vec2(x, y) && color == c
      ensures kind == k
    {
      pos, color := Vec2(x, y), c;
      kind := k;
    }

    /**
      The default subclass constructors used by `pieceFactory`. They leave the
      position and colour indeterminate, so nothing is promised about them.
    */
    constructor Blank(k: Kind)
      ensures kind == k
    {
      pos, color := Vec2(0, 0), Black;
      kind := k;
    }

    function Info(): PieceInfo
      reads this
    {
      PieceInfo(pos, color, kind)
    }

    /** The piece's `model` string, drawn by `show`. */
    function Model(): string
      reads this
    {
      [ModelChar(kind)]
    }

    method SetValues(x: int, y: int, c: Color)
      modifies this
      ensures pos == Vec2(x, y) && color == c
    {
      pos := Vec2(x, y);
      color := c;
    }

    /**
      `move(Vec2 delta)`: when the kind's test accepts the displacement the
      position advances by it and the result is true; otherwise nothing
      changes and the result is false. The colour never changes.
    */
    method Move(delta: Vec2) returns (moved: bool)
      modifies this
      ensures moved == Legal(kind, delta)
      ensures pos == if moved then Add(old(pos), delta) else old(pos)
      ensures color == old(color)
    {
      if Legal(kind, delta) {
        pos := Add(pos, delta);
        moved := true;
      } else {
        moved := false;
      }
    }

    /** `move(int x, int y)`: forwards to `Move` with the pair as a vector. */
    method MoveBy(x: int, y: int) returns (moved: bool)
      modifies this
      ensures moved == Legal(kind, Vec2(x, y))
      ensures pos == if moved then Vec2(old(pos).x + x, old(pos).y + y) else old(pos)
      ensures color == old(color)
    {
      moved := Move(Vec2(x, y));
    }
  }

  /**
    A pawn accepts exactly the null move and the four orthogonal unit steps,
    in every direction: diagonal steps (magnitude the square root of 2) fail.
  */
  lemma PawnMoves(d: Vec2)
    ensures Legal(Pawn, d) <==> d in {Vec2(0, 0), Vec2(1, 0), Vec2(-1, 0), Vec2(0, 1), Vec2(0, -1)}
    ensures !Legal(Pawn, Vec2(1, 1)) && !Legal(Pawn, Vec2(2, 0))
  {
  }

  /**
    A castle reaches any other square of its own row or column, at any
    distance, and rejects staying put.
  */
  lemma CastleMoves(src: Vec2, dst: Vec2)
    ensures Legal(Castle, Sub(dst, src)) <==> dst != src && (dst.x == src.x || dst.y == src.y)
    ensures !Legal(Castle, Vec2(0, 0))
  {
  }

  /** A knight accepts every displacement. */
  lemma KnightMoves(d: Vec2)
    ensures Legal(Knight, d)
  {
  }

  /**
    A bishop reaches exactly the squares with the same row-minus-column
    difference, the starting square included; the other diagonal is refused.
  */
  lemma BishopMoves(src: Vec2, dst: Vec2)
    ensures Legal(Bishop, Sub(dst, src)) <==> dst.x - dst.y == src.x - src.y
    ensures Legal(Bishop, Vec2(0, 0)) && !Legal(Bishop, Vec2(1, -1))
  {
  }

  /** A queen moves as a castle or as a bishop, at any distance. */
  lemma QueenMoves(d: Vec2)
    ensures Legal(Queen, d) <==> Legal(Castle, d) || Legal(Bishop, d)
    ensures !Legal(Queen, Vec2(1, -1)) && Legal(Queen, Vec2(7, 7))
  {
  }

  /** A king uses the queen's test, with no one-square limit. */
  lemma KingMoves(d: Vec2)
    ensures Legal(King, d) <==> Legal(Queen, d)
    ensures Legal(King, Vec2(0, 7)) && Legal(King, Vec2(-5, -5))
  {
  }

  /** Every kind's test is symmetric: a legal displacement can be undone. */
  lemma MoveReversible(k: Kind, d: Vec2)
    ensures Legal(k, d) <==> Legal(k, Neg(d))
  {
    assert SquaredMag(Neg(d)) == SquaredMag(d) by {
      assert (-d.x) * (-d.x) == d.x * d.x;
      assert (-d.y) * (-d.y) == d.y * d.y;
    }
  }
}
