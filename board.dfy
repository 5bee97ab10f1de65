/**
  The board: the opening arrangement of the 32 pieces, the look-up of the
  first piece standing on a square, and the board object that builds the
  arrangement with the nested loops of its constructor.
*/
module ChessBoard {
  import opened Options
  import opened Pieces

  const BoardSize := 8
  const NumPawns := BoardSize
  const WhitePawnStartingRow := 1
  const WhitePieceStartingRow := 0
  const BlackPawnStartingRow := 6
  const BlackPieceStartingRow := 7

  /** The back-rank type names, column by column. */
  const WhitePieceOrder: seq<string> :=
    ["castle", "knight", "bishop", "queen", "king", "bishop", "knight", "castle"]
  const BlackPieceOrder: seq<string> :=
    ["castle", "knight", "bishop", "king", "queen", "bishop", "knight", "castle"]

  function PawnRow(c: Color): int {
    if c == White then WhitePawnStartingRow else BlackPawnStartingRow
  }

  function PieceRow(c: Color): int {
    if c == White then WhitePieceStartingRow else BlackPieceStartingRow
  }

  function PieceOrder(c: Color): seq<string> {
    if c == White then WhitePieceOrder else BlackPieceOrder
  }

  /**
    The kinds of the program's back ranks, column by column. The queen and
    the king swap places between the colours, so black's king stands on
    column 3 and its queen on column 4.
  */
  const WhiteBackRank: seq<Kind> := [Castle, Knight, Bishop, Queen, King, Bishop, Knight, Castle]
  const BlackBackRank: seq<Kind> := [Castle, Knight, Bishop, King, Queen, Bishop, Knight, Castle]

  function BackRank(c: Color, col: int): Kind
    requires 0 <= col < NumPawns
  {
    if c == White then WhiteBackRank[col] else BlackBackRank[col]
  }

  /**
    The factory turns every name of the colour's order table into the
    program's back-rank kind of that column.
  */
  lemma PieceOrderKinds(c: Color, col: int)
    requires 0 <= col < NumPawns
    ensures PieceFactory(PieceOrder(c)[col]) == Some(BackRank(c, col))
  {
    assert TypeName(BackRank(c, col)) == PieceOrder(c)[col];
  }

  /**
    The opening arrangement in closed form: index `i` holds colour `i / 16`
    (white first), column `(i % 16) / 2`, and a pawn at even indices, the
    back-rank piece of that column at odd ones.
  */
  function InitialPiece(i: int): PieceInfo
    requires 0 <= i < 32
  {
    var c := if i < 16 then White else Black;
    var col := (i % 16) / 2;
    if i % 2 == 0 then PawnStart(c, col) else BackRankStart(c, col)
  }

  /** The opening square and kind of the pawn, and of the back-rank piece, of a column. */
  function PawnStart(c: Color, col: int): PieceInfo {
    PieceInfo(Vec2(PawnRow(c), col), c, Pawn)
  }

  function BackRankStart(c: Color, col: int): PieceInfo
    requires 0 <= col < NumPawns
  {
    PieceInfo(Vec2(PieceRow(c), col), c, BackRank(c, col))
  }

  /** White's pieces come first, so black's start at index 16. */
  function ColourBase(c: Color): int {
    if c == White then 0 else 16
  }

  function InitialLayout(): seq<PieceInfo> {
    seq(32, i requires 0 <= i < 32 => InitialPiece(i))
  }

  /**
    The index of the first piece whose position is `sq`, or None when no
    piece stands there: the scan `Board::show` runs for every square.
  */
  function FirstAt(layout: seq<PieceInfo>, sq: Vec2): (r: Option<nat>)
    ensures r.Some? ==> r.value < |layout| && layout[r.value].pos == sq
    ensures r.Some? ==> forall j :: 0 <= j < r.value ==> layout[j].pos != sq
    ensures r.None? <==> forall j :: 0 <= j < |layout| ==> layout[j].pos != sq
  {
    if layout == [] then None
    else if layout[0].pos == sq then Some(0)
    else
      match FirstAt(layout[1..], sq)
      case None => None
      case Some(k) => Some(k + 1)
  }

  /** The column's pawn and back-rank piece sit at indices 16c + 2col and 16c + 2col + 1. */
  lemma InitialColumn(c: Color, col: int)
    requires 0 <= col < NumPawns
    ensures InitialPiece(ColourBase(c) + 2 * col) == PawnStart(c, col)
    ensures InitialPiece(ColourBase(c) + 2 * col + 1) == BackRankStart(c, col)
  {
    var base := ColourBase(c) + 2 * col;
    assert base % 16 == 2 * col && (base + 1) % 16 == 2 * col + 1;
    assert base % 2 == 0 && (base + 1) % 2 == 1;
  }

  /**
    The opening arrangement holds 32 pieces, 16 white then 16 black, each
    colour with pawns on its pawn row and the order table's pieces on its
    back row, and one pawn and one back-rank piece in every column.
  */
  lemma InitialLayoutShape()
    ensures |InitialLayout()| == 32
    ensures forall i :: 0 <= i < 32 ==> InitialLayout()[i].color == (if i < 16 then White else Black)
    ensures forall i :: 0 <= i < 32 ==> 0 <= InitialLayout()[i].pos.y < BoardSize
    ensures forall i :: 0 <= i < 32 ==>
      var p := InitialLayout()[i];
      (p.kind == Pawn <==> p.pos.x == PawnRow(p.color)) &&
      (p.kind != Pawn ==> p.pos.x == PieceRow(p.color) && p.kind == BackRank(p.color, p.pos.y))
  {
    forall i | 0 <= i < 32
      ensures var p := InitialLayout()[i];
        (p.kind == Pawn <==> p.pos.x == PawnRow(p.color)) &&
        (p.kind != Pawn ==> p.pos.x == PieceRow(p.color) && p.kind == BackRank(p.color, p.pos.y))
    {
      var p := InitialLayout()[i];
      if p.kind == Pawn {
        assert i % 2 == 0;
      } else {
        assert i % 2 == 1;
      }
    }
  }

  /** Where the opening piece of a square sits in the arrangement. */
  function InitialIndex(sq: Vec2): int {
    (if sq.x <= 1 then 0 else 16) + 2 * sq.y + (if sq.x == 1 || sq.x == 6 then 0 else 1)
  }

  predicate OpeningSquare(sq: Vec2) {
    sq.x in {0, 1, 6, 7} && 0 <= sq.y < BoardSize
  }

  lemma InitialIndexInverse(i: int)
    requires 0 <= i < 32
    ensures OpeningSquare(InitialLayout()[i].pos)
    ensures InitialIndex(InitialLayout()[i].pos) == i
  {
    var q, m := i / 16, i % 16;
    assert i == 16 * q + m && 0 <= m < 16 && (q == 0 <==> i < 16);
    var col, par := m / 2, m % 2;
    assert m == 2 * col + par && i % 2 == par;
  }

  /** No two opening pieces share a square. */
  lemma InitialSquaresDistinct()
    ensures forall i, j :: 0 <= i < j < 32 ==> InitialLayout()[i].pos != InitialLayout()[j].pos
  {
    forall i, j | 0 <= i < j < 32
      ensures InitialLayout()[i].pos != InitialLayout()[j].pos
    {
      InitialIndexInverse(i);
      InitialIndexInverse(j);
    }
  }

  /**
    On the opening board the scan finds a piece exactly on rows 0, 1, 6 and
    7 of the eight columns, and what it finds is the one piece there.
  */
  lemma InitialLookup(sq: Vec2)
    ensures FirstAt(InitialLayout(), sq).Some? <==> OpeningSquare(sq)
    ensures OpeningSquare(sq) ==> FirstAt(InitialLayout(), sq) == Some(InitialIndex(sq))
    ensures forall j :: 0 <= j < 32 && InitialLayout()[j].pos == sq ==> j == InitialIndex(sq)
  {
    forall j | 0 <= j < 32 && InitialLayout()[j].pos == sq
      ensures j == InitialIndex(sq)
    {
      InitialIndexInverse(j);
    }
    if OpeningSquare(sq) {
      OpeningSquareFound(sq);
    } else {
      OtherSquareEmpty(sq);
    }
  }

  lemma OpeningSquareFound(sq: Vec2)
    requires OpeningSquare(sq)
    ensures FirstAt(InitialLayout(), sq) == Some(InitialIndex(sq))
  {
    var i := InitialIndex(sq);
    var c := if sq.x <= 1 then White else Black;
    InitialColumn(c, sq.y);
    assert InitialLayout()[i].pos == sq;
    var r := FirstAt(InitialLayout(), sq);
    assert r.Some?;
    InitialIndexInverse(r.value);
  }

  lemma OtherSquareEmpty(sq: Vec2)
    requires !OpeningSquare(sq)
    ensures FirstAt(InitialLayout(), sq).None?
  {
    var r := FirstAt(InitialLayout(), sq);
    if r.Some? {
      InitialIndexInverse(r.value);
    }
  }

  /** The owner of every piece; `size` is the side of the square board. */
  class Board {
    const size: int
    var pieces: seq<Piece>

    ghost function Layout(): seq<PieceInfo>
      reads this, pieces
    {
      seq(|pieces|, i reads this, pieces requires 0 <= i < |pieces| => pieces[i].Info())
    }

    /** No piece object is held twice. */
    ghost predicate Valid()
      reads this
    {
      forall i, j :: 0 <= i < j < |pieces| ==> pieces[i] != pieces[j]
    }

    /**
      `Board()`: for white and then black, for each column, a pawn on the
      colour's pawn row and the factory's piece for that column of the
      colour's order table on its back row; the result is the opening
      arrangement, built from fresh, distinct piece objects.
    */
    constructor ()
      ensures size == BoardSize
      ensures Valid() && Layout() == InitialLayout()
      ensures forall p :: p in pieces ==> fresh(p)
    {
      var ps: seq<Piece> := [];
      var c := 0;
      while c < 2
        invariant 0 <= c <= 2 && |ps| == 16 * c
        invariant forall i :: 0 <= i < |ps| ==> fresh(ps[i]) && ps[i].Info() == InitialPiece(i)
      {
        var pieceColor := if c < 1 then White else Black;
        ps := PlaceColour(ps, pieceColor);
        ColumnsAreInitialPieces(ps, pieceColor);
        c := c + 1;
      }
      size := BoardSize;
      pieces := ps;
      new;
      LayoutOfInitialPieces(this);
    }

    /**
      The first piece, in insertion order, standing at row `x` and column
      `y`; None when the square is empty.
    */
    method PieceAt(x: int, y: int) returns (r: Option<nat>)
      ensures r == FirstAt(Layout(), Vec2(x, y))
    {
      var p := 0;
      while p < |pieces|
        invariant 0 <= p <= |pieces|
        invariant forall j :: 0 <= j < p ==> Layout()[j].pos != Vec2(x, y)
      {
        if pieces[p].pos.x == x && pieces[p].pos.y == y {
          assert Layout()[p].pos == Vec2(x, y);
          return Some(p);
        }
        p := p + 1;
      }
      return None;
    }
  }

  /**
    One pass of the constructor's outer loop: for each column, a pawn on the
    colour's pawn row and the factory's piece for that column of the
    colour's order table on its back row, appended in that order.
  */
  method PlaceColour(ps: seq<Piece>, pieceColor: Color) returns (ps': seq<Piece>)
    ensures |ps'| == |ps| + 2 * NumPawns && ps'[..|ps|] == ps
    ensures forall i :: |ps| <= i < |ps'| ==> fresh(ps'[i])
    ensures forall col :: 0 <= col < NumPawns ==>
      ps'[|ps| + 2 * col].Info() == PawnStart(pieceColor, col) &&
      ps'[|ps| + 2 * col + 1].Info() == BackRankStart(pieceColor, col)
  {
    var pawnRow, pieceRow;
    if pieceColor == White {
      pawnRow, pieceRow := WhitePawnStartingRow, WhitePieceStartingRow;
    } else {
      pawnRow, pieceRow := BlackPawnStartingRow, BlackPieceStartingRow;
    }
    var pieceOrder := if pieceColor == White then WhitePieceOrder else BlackPieceOrder;
    ps' := ps;
    var col := 0;
    while col < NumPawns
      invariant 0 <= col <= NumPawns && |ps'| == |ps| + 2 * col && ps'[..|ps|] == ps
      invariant forall i :: |ps| <= i < |ps'| ==> fresh(ps'[i])
      invariant forall k :: 0 <= k < col ==>
        ps'[|ps| + 2 * k].Info() == PawnStart(pieceColor, k) &&
        ps'[|ps| + 2 * k + 1].Info() == BackRankStart(pieceColor, k)
    {
      var newPawn := new Piece(pawnRow, col, pieceColor, Pawn);
      ps' := ps' + [newPawn];

      PieceOrderKinds(pieceColor, col);
      var newPiece := NewPiece(pieceOrder[col], pieceRow, col, pieceColor);
      ps' := ps' + [newPiece];
      col := col + 1;
    }
  }

  /** The column-by-column placement of one colour is its block of the closed form. */
  lemma ColumnsAreInitialPieces(ps: seq<Piece>, c: Color)
    requires |ps| >= ColourBase(c) + 2 * NumPawns
    requires forall col :: 0 <= col < NumPawns ==>
      ps[ColourBase(c) + 2 * col].Info() == PawnStart(c, col) &&
      ps[ColourBase(c) + 2 * col + 1].Info() == BackRankStart(c, col)
    ensures forall i :: ColourBase(c) <= i < ColourBase(c) + 2 * NumPawns ==> ps[i].Info() == InitialPiece(i)
  {
    forall i | ColourBase(c) <= i < ColourBase(c) + 2 * NumPawns
      ensures ps[i].Info() == InitialPiece(i)
    {
      var col := (i - ColourBase(c)) / 2;
      InitialColumn(c, col);
      assert i == ColourBase(c) + 2 * col || i == ColourBase(c) + 2 * col + 1;
    }
  }

  lemma LayoutOfInitialPieces(b: Board)
    requires |b.pieces| == 32 && forall i :: 0 <= i < 32 ==> b.pieces[i].Info() == InitialPiece(i)
    ensures b.Layout() == InitialLayout() && b.Valid()
  {
    assert forall i :: 0 <= i < 32 ==> b.Layout()[i] == InitialLayout()[i];
    InitialSquaresDistinct();
  }

  /**
    A piece made by the factory from a type name the factory accepts, then
    placed with `setValues`.
  */
  method NewPiece(pieceType: string, x: int, y: int, c: Color) returns (p: Piece)
    requires PieceFactory(pieceType).Some?
    ensures fresh(p)
    ensures p.Info() == PieceInfo(Vec2(x, y), c, PieceFactory(pieceType).value)
  {
    p := new Piece.Blank(PieceFactory(pieceType).value);
    p.SetValues(x, y, c);
  }

  /** Scenarios on the opening arrangement. */
  lemma OpeningScenarios()
    ensures InitialLayout()[1] == PieceInfo(Vec2(0, 0), White, Castle) && Legal(Castle, Vec2(0, 5))
    ensures InitialLayout()[5] == PieceInfo(Vec2(0, 2), White, Bishop) && Legal(Bishop, Vec2(2, 2))
    ensures InitialLayout()[2] == PieceInfo(Vec2(1, 1), White, Pawn) && !Legal(Pawn, Vec2(0, 3))
  {
  }

  /**
    A new board: the scan finds the white castle at row 0, column 0; moving
    it five columns along its row succeeds, puts it on column 5 and leaves
    every other piece where the opening arrangement put it.
  */
  method CastleMoveScenario() returns (b: Board, found: Option<nat>, moved: bool)
    ensures found == Some(1) && moved
    ensures |b.pieces| == 32 && b.pieces[1].Info() == PieceInfo(Vec2(0, 5), White, Castle)
    ensures forall j :: 0 <= j < 32 && j != 1 ==> b.pieces[j].Info() == InitialLayout()[j]
  {
    b := new Board();
    found := b.PieceAt(0, 0);
    InitialLookup(Vec2(0, 0));
    assert b.Layout() == InitialLayout();
    assert |b.pieces| == 32 && forall j :: 0 <= j < 32 ==> b.pieces[j].Info() == InitialLayout()[j];
    var castle := b.pieces[1];
    assert castle in b.pieces;
    moved := castle.Move(Vec2(0, 5));
  }
}
