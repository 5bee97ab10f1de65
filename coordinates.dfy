/**
  Validation of the four characters of a move such as `e2 e4`: the file
  letter and rank digit of the piece's square and of the proposed square.
  Every character is rewritten on a local copy; an unacceptable one throws
  "invalid move arg", modelled as None.
*/
module Coordinates {
  import opened Options
  import opened Pieces

  const UpperToDigitDel := 17
  const LowerToDigitDel := 49

  /** 'a'..'h' (character codes 97..104). */
  predicate ValidLowerPosChar(posChar: char) {
    97 <= posChar as int <= 104
  }

  /** 'A'..'Z' (character codes 65..90): the whole alphabet, not only 'A'..'H'. */
  predicate ValidUpperPosChar(posChar: char) {
    65 <= posChar as int <= 90
  }

  /** '0'..'7' (character codes 48..55). */
  predicate ValidDigit(posChar: char) {
    48 <= posChar as int <= 55
  }

  /**
    What one pass of the conversion loop makes of a character: a file letter
    becomes the digit of its zero-based column, in either case; a digit
    stays itself; anything else is refused.
  */
  function DecodeChar(p: char): (r: Option<char>)
    ensures r.Some? <==> 'A' <= p <= 'Z' || 'a' <= p <= 'h' || '0' <= p <= '7'
    ensures 'a' <= p <= 'h' ==> r == Some(('0' as int + (p as int - 'a' as int)) as char)
    ensures 'A' <= p <= 'H' ==> r == Some(('0' as int + (p as int - 'A' as int)) as char)
    ensures 'I' <= p <= 'Z' ==> r.Some? && '8' <= r.value <= 'I'
    ensures '0' <= p <= '7' ==> r == Some(p)
  {
    if ValidUpperPosChar(p) then Some((p as int - UpperToDigitDel) as char)
    else if ValidLowerPosChar(p) then Some((p as int - LowerToDigitDel) as char)
    else if ValidDigit(p) then Some(p)
    else None
  }

  /**
    `s[i]` of a C++ string for `i` up to its length: the position just past
    the last character reads the terminating NUL.
  */
  function CharAt(s: string, i: nat): char
    requires i <= |s|
  {
    if i < |s| then s[i] else '\0'
  }

  /** The four characters copied into the local vector `positions`. */
  function Operands(piece: string, proposedMove: string): (r: seq<char>)
    requires |piece| >= 1 && |proposedMove| >= 1
  {
    [CharAt(piece, 0), CharAt(piece, 1), CharAt(proposedMove, 0), CharAt(proposedMove, 1)]
  }

  /**
    The rewritten copy when every character is acceptable, None as soon as
    one is not.
  */
  function Convert(cs: seq<char>): (r: Option<seq<char>>)
    ensures r.None? <==> exists i :: 0 <= i < |cs| && DecodeChar(cs[i]).None?
    ensures r.Some? ==> |r.value| == |cs| && forall i :: 0 <= i < |cs| ==> DecodeChar(cs[i]) == Some(r.value[i])
  {
    if cs == [] then Some([])
    else
      match DecodeChar(cs[0])
      case None => None
      case Some(d) =>
        match Convert(cs[1..])
        case None => None
        case Some(rest) => Some([d] + rest)
  }

  /** Any outcome with the two properties of `Convert` is `Convert`'s. */
  lemma ConvertDetermined(cs: seq<char>, r: Option<seq<char>>)
    requires r.None? <==> exists i :: 0 <= i < |cs| && DecodeChar(cs[i]).None?
    requires r.Some? ==> |r.value| == |cs| && forall i :: 0 <= i < |cs| ==> DecodeChar(cs[i]) == Some(r.value[i])
    ensures r == Convert(cs)
  {
    if r.Some? {
      assert r.value == Convert(cs).value;
    }
  }

  /**
    `convetChessQuards`: copies the two characters of each token into a
    local vector and rewrites every element in place, failing on the first
    unacceptable one. The result is the rewritten vector, which the program
    discards; the two arguments are values and are never changed.
  */
  method ConvertChessQuards(piece: string, proposedMove: string) returns (r: Option<seq<char>>)
    requires |piece| >= 1 && |proposedMove| >= 1
    ensures r.None? <==> exists j :: 0 <= j < 4 && DecodeChar(Operands(piece, proposedMove)[j]).None?
    ensures r.Some? ==> |r.value| == 4 && forall j :: 0 <= j < 4 ==> DecodeChar(Operands(piece, proposedMove)[j]) == Some(r.value[j])
    ensures r == Convert(Operands(piece, proposedMove))
  {
    var positions := new char[4];
    positions[0], positions[1] := CharAt(piece, 0), CharAt(piece, 1);
    positions[2], positions[3] := CharAt(proposedMove, 0), CharAt(proposedMove, 1);
    ghost var ops := Operands(piece, proposedMove);
    var i := 0;
    while i < positions.Length
      invariant 0 <= i <= 4
      invariant forall j :: 0 <= j < i ==> DecodeChar(ops[j]) == Some(positions[j])
      invariant forall j :: i <= j < 4 ==> positions[j] == ops[j]
    {
      var p := positions[i];
      if ValidUpperPosChar(p) {
        positions[i] := (p as int - UpperToDigitDel) as char;
      } else if ValidLowerPosChar(p) {
        positions[i] := (p as int - LowerToDigitDel) as char;
      } else if ValidDigit(p) {
        positions[i] := p;
      } else {
        assert DecodeChar(ops[i]).None?;
        ConvertDetermined(ops, None);
        return None;
      }
      assert DecodeChar(ops[i]) == Some(positions[i]);
      i := i + 1;
    }
    r := Some(positions[..]);
    ConvertDetermined(ops, r);
  }

  /** The token of a square: the file letter of its column, then the digit of its row. */
  function Token(sq: Vec2): string
    requires 0 <= sq.x < 8 && 0 <= sq.y < 8
  {
    [('a' as int + sq.y) as char, ('0' as int + sq.x) as char]
  }

  /** The square named by a converted column digit and row digit. */
  function SquareOf(column: char, row: char): Vec2 {
    Vec2(row as int - '0' as int, column as int - '0' as int)
  }

  /**
    Converting the tokens of two squares succeeds, and reading the four
    digits back as (column, row) pairs gives the two squares again.
  */
  lemma TokenRoundTrip(src: Vec2, dst: Vec2)
    requires 0 <= src.x < 8 && 0 <= src.y < 8
    requires 0 <= dst.x < 8 && 0 <= dst.y < 8
    ensures Convert(Operands(Token(src), Token(dst))).Some?
    ensures var p := Convert(Operands(Token(src), Token(dst))).value;
      |p| == 4 && SquareOf(p[0], p[1]) == src && SquareOf(p[2], p[3]) == dst
  {
    var ops := Operands(Token(src), Token(dst));
    assert ops == Token(src) + Token(dst);
    var p := Convert(ops);
    assert DecodeChar(ops[0]).Some? && DecodeChar(ops[1]).Some?;
    assert DecodeChar(ops[2]).Some? && DecodeChar(ops[3]).Some?;
  }

  /** Upper- and lower-case file letters convert alike. */
  lemma CaseInsensitiveFiles(c: char)
    requires 'a' <= c <= 'h'
    ensures DecodeChar(c) == DecodeChar((c as int - 32) as char)
  {
  }

  /**
    Rejections: a file past 'h' in lower case, a rank past '7', and a
    one-character token, whose second character is the terminating NUL.
  */
  lemma RejectedTokens()
    ensures Convert(Operands("i9", "e2")).None?
    ensures Convert(Operands("e8", "e2")).None?
    ensures Convert(Operands("e", "e2")).None?
    ensures Convert(Operands("Z2", "e2")).Some?
  {
    assert DecodeChar('i').None?;
    assert DecodeChar('8').None?;
    assert DecodeChar('\0').None?;
  }
}
