# Console chess: verified model of the movement rules, the board and the coordinate check

This project models the domain logic of a small console chess program
(`main.cpp`) in Dafny and proves what that logic does.

- **Pieces** (`pieces.dfy`). A piece has a position (`x` is the row, `y`
  the column), a colour and a kind: pawn, castle (the rook), knight,
  bishop, queen or king. `Move(delta)` applies the kind's purely
  geometric test to the integer displacement. When the test passes,
  the position advances by the displacement and the result is true.
  Otherwise nothing changes and the result is false. There is no check
  of board bounds, of occupancy or of colour.
- **Piece factory** (`pieces.dfy`). `PieceFactory` maps the six type
  names to kinds. It yields None, where the program throws, for every
  other string.
- **Board** (`board.dfy`). The constructor runs the program's nested
  loops, white then black and column by column. Each column appends a
  pawn, then the back-rank piece that the factory makes from that
  column of the colour's order table. The result is proved equal to a
  closed-form opening arrangement: 32 pieces on 32 distinct squares.
  `PieceAt` is the scan that the board renderer runs for every square.
  It returns the first piece, in insertion order, standing on the square.
- **Coordinate check** (`coordinates.dfy`). `ConvertChessQuards` copies
  the four characters of a move (`e2 e4`) into a local array and rewrites
  them in place. An upper-case letter loses 17, a lower-case `a`..`h`
  loses 49 and a digit `0`..`7` stays. Any other character makes the
  conversion fail. The program discards the rewritten copy, so the only
  observable outcome is success or failure. The argument strings are
  Dafny values and cannot change.

Model choices:

- The float magnitude `mag` is replaced by the integer squared magnitude
  `SquaredMag`. The square root is monotone, so `mag(d) <= 1` holds
  exactly when `SquaredMag(d) <= 1`.
- The knight's two tolerance bounds around `mag(2, 3)` overlap, so every
  displacement passes. The model keeps the same disjunction on squared
  magnitudes, which is also always true.
- Virtual dispatch becomes the `Kind` datatype and one `match` in `Legal`.
- The `model` display string is a function of the kind: `Piece.Model`
  returns the one-character string `ModelChar(kind)`, because no code ever
  assigns `model` after construction.

The model follows the code where a reader might expect otherwise:

- A pawn rejects the diagonal step (1, 1), whose magnitude is the square
  root of 2.
- The upper-case test accepts the whole range `A`..`Z`, not only `A`..`H`.
  `I`..`Z` convert to characters past `7`.
- The black king starts on column 3 (d8) and the black queen on column 4
  (e8). This is the reverse of the standard opening, where both queens
  stand on the d-file.
- The program never uses the converted coordinates. No move is ever
  applied to the board, so no "apply move" operation exists to model.

## Model

| member | source | states |
|---|---|---|
| `Pieces.PieceFactory` | main.cpp:229-248 | A name yields kind `k` exactly when it is `k`'s `get_type` name. So exactly "pawn", "castle", "knight", "bishop", "queen" and "king" are accepted, and every other string fails. |
| `Pieces.TypeNamesDistinct` | main.cpp:96-226 | The six `get_type` overrides return pairwise different names: two kinds report the same name exactly when they are the same kind. |
| `Pieces.ModelCharsDistinct` | main.cpp:80-209 | The characters the six kinds' constructors store in `model` are pairwise different: two kinds draw the same character exactly when they are the same kind. The knight's `k` and the king's `K` differ only by case. |
| `Pieces.Piece.constructor` | main.cpp:58 | The square-and-colour constructors: the piece starts at `(x, y)` with the given colour and kind. |
| `Pieces.Piece.Blank` | main.cpp:79-207 | The six default constructors used by the factory (main.cpp:79-81, 102-104, 128-130, 156-158, 179-181 and 205-207) fix only the kind. Position and colour are left indeterminate. |
| `Pieces.Piece.SetValues` | main.cpp:67-71 | Sets the position to `(x, y)` and the colour to `c`. |
| `Pieces.Piece.Move` | main.cpp:86-227 | Returns true exactly when the kind's test accepts `delta`. On true the position becomes old position plus `delta`; on false it is unchanged. The colour never changes and the kind is a constant. |
| `Pieces.Piece.MoveBy` | main.cpp:60-62 | `move(x, y)` behaves as `Move` on the vector `(x, y)`. |
| `Pieces.PawnMoves` | main.cpp:86-94 | A pawn accepts exactly `(0,0)`, `(±1,0)` and `(0,±1)`. The diagonal `(1,1)` and the double step `(2,0)` are refused. |
| `Pieces.CastleMoves` | main.cpp:109-120 | A castle's move from `src` to `dst` is legal exactly when `dst` is another square on the same row or column, at any distance. The null move is refused. |
| `Pieces.KnightMoves` | main.cpp:135-152 | A knight's test accepts every displacement. |
| `Pieces.BishopMoves` | main.cpp:163-171 | A bishop's move from `src` to `dst` is legal exactly when both squares have the same row-minus-column difference. This includes staying put; the other diagonal, `(1,-1)`, is refused. |
| `Pieces.QueenMoves` | main.cpp:186-197 | A queen's test is the castle's test or the bishop's test, with no distance limit. `(1,-1)` is refused. |
| `Pieces.KingMoves` | main.cpp:212-222 | A king uses exactly the queen's test, so `(0,7)` and `(-5,-5)` are accepted. |
| `Pieces.MoveReversible` | main.cpp:86-227 | For every kind, a displacement passes the test exactly when its negation does. |
| `ChessBoard.PieceOrderKinds` | main.cpp:327-328 | The factory turns the name in each column of each order table into the program's back-rank kind for that column. The queen and king columns are swapped between white and black. |
| `ChessBoard.PlaceColour` | main.cpp:272-287 | For one colour, appends 16 fresh pieces, one pair per column: a pawn on the colour's pawn row, then the factory's back-rank piece on its piece row. |
| `ChessBoard.NewPiece` | main.cpp:283-284 | The factory's piece for an accepted name, placed with `setValues`: a fresh piece with that square, colour and kind. |
| `ChessBoard.Board.constructor` | main.cpp:256-289 | The pieces, read as values, equal the closed-form opening arrangement. They are fresh, distinct objects, and `size` is 8. |
| `ChessBoard.InitialLayoutShape` | main.cpp:256-289 | The opening arrangement has 32 pieces, 16 white then 16 black, all in columns 0..7. Pawns are exactly the pieces on their colour's pawn row (1 or 6). Every other piece is on its colour's piece row (0 or 7), with the back-rank kind of its column. |
| `ChessBoard.InitialSquaresDistinct` | main.cpp:256-289 | No two opening pieces share a square. |
| `ChessBoard.FirstAt` | main.cpp:304-311 | The result is the index of a piece on the square with no piece on it at an earlier index. It is None exactly when no piece stands on the square. |
| `ChessBoard.Board.PieceAt` | main.cpp:304-311 | The loop with `break` returns the first index, in insertion order, of a piece at row `x`, column `y`, or None. |
| `ChessBoard.InitialLookup` | main.cpp:304-311 | On the opening arrangement the scan finds a piece exactly on rows 0, 1, 6 and 7 of columns 0..7. What it finds there is the only piece on that square: every opening piece standing on that square has that index. |
| `ChessBoard.OpeningScenarios` | main.cpp:256-289 | On the opening board, the white castle at (0,0) may move by (0,5) and the white bishop at (0,2) by (2,2). The white pawn at (1,1) may not move by (0,3). |
| `ChessBoard.CastleMoveScenario` | main.cpp:109-120 | On a newly built board, the scan at row 0, column 0 finds piece 1. Moving that white castle by (0,5) succeeds and puts it on (0,5). Every other piece keeps its opening square, colour and kind. |
| `Coordinates.DecodeChar` | main.cpp:330-357 | Accepts exactly `A`..`Z`, `a`..`h` and `0`..`7`. A file letter in either case from `a`/`A` to `h`/`H` becomes the digit of its zero-based column, and `I`..`Z` become characters past `7`. A digit stays itself. |
| `Coordinates.Convert` | main.cpp:343-358 | Fails exactly when some character is refused. Otherwise the result has the same length and holds each character's conversion in place. |
| `Coordinates.ConvertChessQuards` | main.cpp:340-358 | The in-place loop over the local copy of `piece[0]`, `piece[1]`, `proposed_move[0]` and `proposed_move[1]` fails exactly when one of the four characters is refused. Otherwise it returns the four conversions in order, which is `Convert` of those characters. A one-character token contributes its terminating NUL. |
| `Coordinates.TokenRoundTrip` | main.cpp:340-358 | For any two on-board squares, converting their tokens succeeds. Reading the digits back as (column, row) gives both squares again. |
| `Coordinates.CaseInsensitiveFiles` | main.cpp:343-351 | `a`..`h` and `A`..`H` convert alike. |
| `Coordinates.RejectedTokens` | main.cpp:340-358 | `i9`, a rank `8` and a one-character token are refused. `Z2` is accepted. |

## Left out

- `Board::show` rendering, `Vec2::to_string`, console input and output, `system("cls")` and the `main` loop are left out because they are I/O. Only the square scan inside `show` is modelled.
- Floating point is left out. `sqrt` and the `0.01` knight tolerances are replaced by exact integer comparisons of squared magnitudes, which give the same answers.
- Pieces.Piece.Move: does not model 32-bit signed overflow of `pos += delta`, or of `x*x + y*y` inside `mag`. Integers are unbounded here; in the program such overflow is undefined behaviour.
- Pieces.Piece.Blank: sets position and colour to arbitrary values, because the C++ default constructors leave them uninitialised. Its contract says nothing about them.
- Raw pointers, `new` without `delete`, and virtual dispatch are replaced by Dafny objects and a `Kind` datatype.
- Exceptions (`runtime_error`) are modelled as None results.
- Coordinates.ConvertChessQuards: requires both tokens to be non-empty. A successful `>>` extraction yields a non-empty token; a failed one leaves the token empty, and `s[1]` is then undefined behaviour, which the requires excludes.
- C++ `char` is a byte whose signedness depends on the compiler and platform, while Dafny's `char` is a Unicode scalar. Every byte from 128 up fails all three range tests whether `char` is signed or unsigned, and the model refuses every character outside ASCII, so this difference is not modelled.
- Applying a decoded move to the board, turns, capture, check and bounds enforcement are left out: the program does none of them.
