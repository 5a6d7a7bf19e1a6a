/**
 * The board tracker of the driver script (play.py): an 8x8 grid of piece
 * letters, white in lower case on rows 0-1 and black in upper case on rows
 * 6-7, and `apply_move`, which updates the grid in place for one move token
 * and returns the new en-passant square.
 *
 * Python semantics are kept: a negative list index counts from the end
 * (-8..-1 reach the same row or column as 0..7), any other out-of-range index
 * raises IndexError, and `int()` of a non-digit raises ValueError. Each error
 * is raised before the grid is written, so a failed call leaves it unchanged.
 */
module Tracker {
  import opened Wrappers
  import opened PyText

  /** The exceptions `apply_move` can raise on a malformed token. */
  datatype PyError = IndexError | ValueError

  /** A (rank, file) pair as Python ints, not yet checked against the grid. */
  type Coord = (int, int)

  predicate IsGrid(g: seq<seq<char>>)
  {
    |g| == 8 && forall r :: 0 <= r < 8 ==> |g[r]| == 8
  }

  /** Python accepts a list index i of an 8-element list when -8 <= i < 8. */
  predicate ValidIndex(i: int) { -8 <= i < 8 }

  /** The element a valid Python index selects. */
  function Wrap(i: int): (k: nat)
    requires ValidIndex(i)
    ensures k < 8 && (k == i || k == i + 8)
  {
    if i < 0 then i + 8 else i
  }

  function Abs(x: int): nat { if x < 0 then -x else x }
  function Min(a: int, b: int): int { if a < b then a else b }

  /** The grid with cell (r, c) replaced by v. */
  function Set(g: seq<seq<char>>, r: nat, c: nat, v: char): (h: seq<seq<char>>)
    requires IsGrid(g) && r < 8 && c < 8
    ensures IsGrid(h) && h[r][c] == v
    ensures forall i, j :: 0 <= i < 8 && 0 <= j < 8 && (i != r || j != c) ==> h[i][j] == g[i][j]
  {
    g[r := g[r][c := v]]
  }

  /** Two grids with the same cells are equal. */
  lemma {:induction false} GridExt(x: seq<seq<char>>, y: seq<seq<char>>)
    requires IsGrid(x) && IsGrid(y)
    requires forall i, j :: 0 <= i < 8 && 0 <= j < 8 ==> x[i][j] == y[i][j]
    ensures x == y
  {
    forall i | 0 <= i < 8 ensures x[i] == y[i] {
      assert forall j :: 0 <= j < 8 ==> x[i][j] == y[i][j];
    }
  }

  /** The contents of a board array, row by row. */
  ghost function Cells(board: array2<char>): (g: seq<seq<char>>)
    requires board.Length0 == 8 && board.Length1 == 8
    reads board
    ensures IsGrid(g)
    ensures forall i, j :: 0 <= i < 8 && 0 <= j < 8 ==> g[i][j] == board[i, j]
  {
    seq(8, (i: int) requires 0 <= i < 8 reads board =>
      seq(8, (j: int) requires 0 <= j < 8 reads board => board[i, j]))
  }

  // ---------------------------------------------------------------------
  // board_init

  /** The starting position: rows 0..7 are ranks 1..8. */
  const StartGrid: seq<seq<char>> := [
    "rnbqkbnr", "pppppppp", "........", "........",
    "........", "........", "PPPPPPPP", "RNBQKBNR"
  ]

  const BackRank: string := "RNBQKBNR"

  /** One of board_init's loops: row r gets letters[i] at column i. */
  method FillRow(board: array2<char>, r: nat, letters: string)
    requires board.Length0 == 8 && board.Length1 == 8 && r < 8 && |letters| == 8
    modifies board
    ensures Cells(board) == old(Cells(board))[r := letters]
  {
    for i := 0 to 8
      invariant forall a, c :: 0 <= a < 8 && 0 <= c < 8 ==>
        board[a, c] == if a == r && c < i then letters[c] else old(board[a, c])
    {
      board[r, i] := letters[i];
    }
    GridExt(Cells(board), old(Cells(board))[r := letters]);
  }

  /** board_init: '.' everywhere, then the four filled rows, each by a loop. */
  method BoardInit() returns (board: array2<char>)
    ensures fresh(board) && board.Length0 == 8 && board.Length1 == 8
    ensures Cells(board) == StartGrid
  {
    board := new char[8, 8]((r, c) => '.');
    var empty := seq(8, r => "........");
    GridExt(Cells(board), empty);
    var lowered := seq(8, i requires 0 <= i < 8 => Lower(BackRank[i]));
    FillRow(board, 0, lowered);
    FillRow(board, 1, "pppppppp");
    FillRow(board, 6, "PPPPPPPP");
    FillRow(board, 7, BackRank);
    assert lowered == "rnbqkbnr";
    assert empty[0 := lowered][1 := "pppppppp"][6 := "PPPPPPPP"][7 := BackRank] == StartGrid;
  }

  /** White occupies rows 0-1 in lower case, black rows 6-7 in upper case, the rest is empty. */
  lemma {:induction false} StartGridSides(r: nat, c: nat)
    requires r < 8 && c < 8
    ensures r <= 1 ==> IsAsciiLower(StartGrid[r][c])
    ensures r >= 6 ==> IsAsciiUpper(StartGrid[r][c]) && StartGrid[r][c] == Upper(StartGrid[7 - r][c])
    ensures 2 <= r <= 5 ==> StartGrid[r][c] == '.'
  {
  }

  // ---------------------------------------------------------------------
  // algebraic_to_coords

  /** algebraic_to_coords: file letter from 'a', rank digit from '1'; (rank, file). */
  function AlgebraicToCoords(sq: string): (r: Result<Coord, PyError>)
    ensures r.Failure? <==> |sq| < 2 || !IsDigit(sq[1])
    ensures r.Failure? ==> (r.error == ValueError <==> |sq| >= 2)
  {
    if |sq| < 2 then Failure(IndexError)
    else if !IsDigit(sq[1]) then Failure(ValueError)
    else Success((DigitValue(sq[1]) - 1, sq[0] as int - 'a' as int))
  }

  /** A square name such as "e2". */
  predicate IsSquareName(sq: string)
  {
    |sq| == 2 && 'a' <= sq[0] <= 'h' && '1' <= sq[1] <= '8'
  }

  function SquareName(rank: nat, file: nat): (sq: string)
    requires rank < 8 && file < 8
    ensures IsSquareName(sq)
  {
    [('a' as int + file) as char, ('1' as int + rank) as char]
  }

  /** Naming a square and parsing the name back are inverse. */
  lemma {:induction false} CoordsRoundTrip(rank: nat, file: nat, sq: string)
    requires rank < 8 && file < 8
    ensures AlgebraicToCoords(SquareName(rank, file)) == Success((rank, file))
    ensures IsSquareName(sq) ==>
      AlgebraicToCoords(sq).Success? &&
      0 <= AlgebraicToCoords(sq).value.0 < 8 && 0 <= AlgebraicToCoords(sq).value.1 < 8 &&
      SquareName(AlgebraicToCoords(sq).value.0, AlgebraicToCoords(sq).value.1) == sq
  {
  }

  // ---------------------------------------------------------------------
  // apply_move

  /** The en-passant victim's row: behind the destination from the mover's side. */
  function VictimRow(side: string, tr: int): int
  {
    if side == "white" then tr - 1 else tr + 1
  }

  /** The promotion letter written to the destination: upper case for black. */
  function PromotedLetter(side: string, promo: char): char
  {
    if side == "black" then Upper(Lower(promo)) else Lower(promo)
  }

  /** The contents of the grid and the returned en-passant square after one token. */
  datatype Outcome = Outcome(grid: seq<seq<char>>, ep: Option<Coord>)

  /** The two square names of a token, parsed: move_str[0:2] and move_str[2:4]. */
  function ParseToken(mv: string): (r: Result<(Coord, Coord), PyError>)
    ensures |mv| >= 4 && IsSquareName(mv[..2]) && IsSquareName(mv[2..4]) ==> r.Success?
  {
    var fromSq := mv[..Min(2, |mv|)];
    var toSq := mv[Min(2, |mv|)..Min(4, |mv|)];
    match AlgebraicToCoords(fromSq)
    case Failure(e) => Failure(e)
    case Success(f) =>
      match AlgebraicToCoords(toSq)
      case Failure(e) => Failure(e)
      case Success(t) => Success((f, t))
  }

  /** The castling branch: king to (ti, tj), then the rook from file 7 to 5 or from 0 to 3. */
  function CastledGrid(g: seq<seq<char>>, fi: nat, fj: nat, ti: nat, tj: nat, kingside: bool): (h: seq<seq<char>>)
    requires IsGrid(g) && fi < 8 && fj < 8 && ti < 8 && tj < 8
    ensures IsGrid(h)
  {
    var (rookFrom, rookTo) := if kingside then (7, 5) else (0, 3);
    var g1 := Set(Set(g, ti, tj, g[fi][fj]), fi, fj, '.');
    Set(Set(g1, ti, rookTo, g1[ti][rookFrom]), ti, rookFrom, '.')
  }

  /** The relocation: the destination takes the origin's contents and the origin becomes '.'. */
  function MovedGrid(g: seq<seq<char>>, fi: nat, fj: nat, ti: nat, tj: nat): (h: seq<seq<char>>)
    requires IsGrid(g) && fi < 8 && fj < 8 && ti < 8 && tj < 8
    ensures IsGrid(h)
  {
    Set(Set(g, ti, tj, g[fi][fj]), fi, fj, '.')
  }

  /** The pawn-moves-diagonally-onto-an-empty-square test of the en-passant branch. */
  predicate EnPassantTest(g: seq<seq<char>>, fi: nat, fj: nat, ti: nat, tj: nat, fc: int, tc: int, ep: Option<Coord>)
    requires IsGrid(g) && fi < 8 && fj < 8 && ti < 8 && tj < 8
  {
    Lower(g[fi][fj]) == 'p' && fc != tc && g[ti][tj] == '.' && ep.Some?
  }

  /** The returned en-passant square: the square passed over by a two-rank pawn move. */
  function NewEnPassant(piece: char, side: string, fr: int, fc: int, tr: int): Option<Coord>
  {
    if Lower(piece) == 'p' && Abs(tr - fr) == 2 then
      Some(if side == "white" then (fr + 1, fc) else (fr - 1, fc))
    else None
  }

  /**
   * The rest of apply_move once the squares are known and the move is not a
   * castling: en-passant removal, relocation, promotion, the new en-passant square.
   */
  function Relocated(g: seq<seq<char>>, mv: string, side: string, ep: Option<Coord>, fr: int, fc: int, tr: int, tc: int)
    : Result<Outcome, PyError>
    requires IsGrid(g) && ValidIndex(fr) && ValidIndex(fc) && ValidIndex(tr) && ValidIndex(tc)
  {
    var (fi, fj, ti, tj) := (Wrap(fr), Wrap(fc), Wrap(tr), Wrap(tc));
    var isEp := EnPassantTest(g, fi, fj, ti, tj, fc, tc, ep);
    var vr := VictimRow(side, tr);
    if isEp && !ValidIndex(vr) then Failure(IndexError)
    else
      var g1 := if isEp then Set(g, Wrap(vr), tj, '.') else g;
      var g2 := MovedGrid(g1, fi, fj, ti, tj);
      var g3 := if |mv| >= 5 then Set(g2, ti, tj, PromotedLetter(side, mv[4])) else g2;
      Success(Outcome(g3, NewEnPassant(g[fi][fj], side, fr, fc, tr)))
  }

  /**
   * apply_move on grid values: the result of applying the token to g, or the
   * exception the token raises.
   */
  function Applied(g: seq<seq<char>>, mv: string, side: string, ep: Option<Coord>): Result<Outcome, PyError>
    requires IsGrid(g)
  {
    match ParseToken(mv)
    case Failure(e) => Failure(e)
    case Success(sq) =>
      var (fr, fc, tr, tc) := (sq.0.0, sq.0.1, sq.1.0, sq.1.1);
      if !ValidIndex(fr) || !ValidIndex(fc) || !ValidIndex(tr) || !ValidIndex(tc) then Failure(IndexError)
      else if Lower(g[Wrap(fr)][Wrap(fc)]) == 'k' && Abs(fc - tc) == 2 then
        Success(Outcome(CastledGrid(g, Wrap(fr), Wrap(fc), Wrap(tr), Wrap(tc), tc == 6), None))
      else Relocated(g, mv, side, ep, fr, fc, tr, tc)
  }

  /** A token whose first four characters name squares (fr, fc) and (tr, tc). */
  predicate TokenNames(mv: string, fr: nat, fc: nat, tr: nat, tc: nat)
  {
    fr < 8 && fc < 8 && tr < 8 && tc < 8 && |mv| >= 4 &&
    mv[..2] == SquareName(fr, fc) && mv[2..4] == SquareName(tr, tc)
  }

  lemma {:induction false} TokenParses(mv: string, fr: nat, fc: nat, tr: nat, tc: nat)
    requires TokenNames(mv, fr, fc, tr, tc)
    ensures ParseToken(mv) == Success(((fr as int, fc as int), (tr as int, tc as int)))
  {
    CoordsRoundTrip(fr, fc, mv[..2]);
    CoordsRoundTrip(tr, tc, mv[2..4]);
  }

  /** The move is taken as a castling: a king letter moving exactly two files. */
  predicate IsCastling(g: seq<seq<char>>, fr: nat, fc: nat, tc: nat)
    requires IsGrid(g) && fr < 8 && fc < 8
  {
    Lower(g[fr][fc]) == 'k' && Abs(fc - tc) == 2
  }

  /**
   * Castling from the e-file along one rank: king to the destination, origin
   * emptied, rook from h to f (destination file g) or from a to d, nothing else
   * changed, and no en-passant square — a promotion letter is ignored.
   */
  lemma {:induction false} CastlingMovesKingAndRook(g: seq<seq<char>>, mv: string, side: string, ep: Option<Coord>,
                                                    r: nat, tc: nat)
    requires IsGrid(g) && TokenNames(mv, r, 4, r, tc) && IsCastling(g, r, 4, tc)
    ensures var res := Applied(g, mv, side, ep);
      var (rookFrom, rookTo) := if tc == 6 then (7, 5) else (0, 3);
      res.Success? && res.value.ep == None &&
      res.value.grid[r][tc] == g[r][4] && res.value.grid[r][4] == '.' &&
      res.value.grid[r][rookTo] == g[r][rookFrom] && res.value.grid[r][rookFrom] == '.' &&
      forall i, j :: 0 <= i < 8 && 0 <= j < 8 && (i != r || (j != 4 && j != tc && j != rookFrom && j != rookTo)) ==>
        res.value.grid[i][j] == g[i][j]
  {
    TokenParses(mv, r, 4, r, tc);
  }

  /** Any accepted castling returns no en-passant square, whatever the token's fifth letter. */
  lemma {:induction false} CastlingClearsEnPassant(g: seq<seq<char>>, mv: string, side: string, ep: Option<Coord>,
                                                   fr: nat, fc: nat, tr: nat, tc: nat)
    requires IsGrid(g) && TokenNames(mv, fr, fc, tr, tc) && IsCastling(g, fr, fc, tc)
    ensures Applied(g, mv, side, ep) == Success(Outcome(CastledGrid(g, fr, fc, tr, tc, tc == 6), None))
  {
    TokenParses(mv, fr, fc, tr, tc);
  }

  /**
   * A pawn moving diagonally onto an empty square while an en-passant square
   * is set removes the pawn behind the destination (row tr-1 for white, tr+1
   * otherwise); the pawn itself is relocated and nothing else changes.
   */
  lemma {:induction false} EnPassantRemovesVictim(g: seq<seq<char>>, mv: string, side: string, ep: Option<Coord>,
                                                  fr: nat, fc: nat, tr: nat, tc: nat)
    requires IsGrid(g) && TokenNames(mv, fr, fc, tr, tc) && |mv| == 4
    requires Lower(g[fr][fc]) == 'p' && fc != tc && g[tr][tc] == '.' && ep.Some?
    requires 0 <= VictimRow(side, tr) < 8
    ensures var res := Applied(g, mv, side, ep);
      var vr := VictimRow(side, tr);
      res.Success? &&
      res.value.grid[vr][tc] == '.' && res.value.grid[tr][tc] == g[fr][fc] && res.value.grid[fr][fc] == '.' &&
      forall i, j :: 0 <= i < 8 && 0 <= j < 8 && (i, j) != (vr, tc) && (i, j) != (tr, tc) && (i, j) != (fr, fc) ==>
        res.value.grid[i][j] == g[i][j]
  {
    TokenParses(mv, fr, fc, tr, tc);
  }

  /** The victim row can fall off the grid (black arriving on row 7): IndexError, board untouched. */
  lemma {:induction false} EnPassantOffGridFails(g: seq<seq<char>>, mv: string, ep: Option<Coord>, fr: nat, fc: nat, tc: nat)
    requires IsGrid(g) && TokenNames(mv, fr, fc, 7, tc)
    requires Lower(g[fr][fc]) == 'p' && fc != tc && g[7][tc] == '.' && ep.Some?
    ensures Applied(g, mv, "black", ep) == Failure(IndexError)
  {
    TokenParses(mv, fr, fc, 7, tc);
  }

  /**
   * Any other move relocates: the destination takes the origin's contents,
   * the origin becomes '.', and no other cell changes.
   */
  lemma {:induction false} MoveRelocates(g: seq<seq<char>>, mv: string, side: string, ep: Option<Coord>,
                                         fr: nat, fc: nat, tr: nat, tc: nat)
    requires IsGrid(g) && TokenNames(mv, fr, fc, tr, tc) && |mv| == 4
    requires !IsCastling(g, fr, fc, tc) && !EnPassantTest(g, fr, fc, tr, tc, fc, tc, ep)
    ensures var res := Applied(g, mv, side, ep);
      res.Success? && res.value.grid[fr][fc] == '.' &&
      ((tr, tc) != (fr, fc) ==> res.value.grid[tr][tc] == g[fr][fc]) &&
      forall i, j :: 0 <= i < 8 && 0 <= j < 8 && (i, j) != (tr, tc) && (i, j) != (fr, fc) ==>
        res.value.grid[i][j] == g[i][j]
  {
    TokenParses(mv, fr, fc, tr, tc);
  }

  /** A fifth letter overwrites the destination: lower case for white, upper case for black. */
  lemma {:induction false} PromotionLetter(g: seq<seq<char>>, mv: string, side: string, ep: Option<Coord>,
                                           fr: nat, fc: nat, tr: nat, tc: nat)
    requires IsGrid(g) && TokenNames(mv, fr, fc, tr, tc) && |mv| >= 5 && !IsCastling(g, fr, fc, tc)
    requires Applied(g, mv, side, ep).Success?
    ensures Applied(g, mv, side, ep).value.grid[tr][tc] == PromotedLetter(side, mv[4])
    ensures IsAlpha(mv[4]) && side == "black" ==> IsAsciiUpper(PromotedLetter(side, mv[4]))
    ensures IsAlpha(mv[4]) && side != "black" ==> IsAsciiLower(PromotedLetter(side, mv[4]))
  {
    TokenParses(mv, fr, fc, tr, tc);
  }

  /**
   * The returned en-passant square is the square passed over exactly when a
   * pawn moved two rows; otherwise None.
   */
  lemma {:induction false} DoublePushSetsEnPassant(g: seq<seq<char>>, mv: string, side: string, ep: Option<Coord>,
                                                   fr: nat, fc: nat, tr: nat, tc: nat)
    requires IsGrid(g) && TokenNames(mv, fr, fc, tr, tc) && !IsCastling(g, fr, fc, tc)
    requires Applied(g, mv, side, ep).Success?
    ensures var newEp := Applied(g, mv, side, ep).value.ep;
      (newEp.Some? <==> Lower(g[fr][fc]) == 'p' && Abs(tr - fr) == 2) &&
      (newEp.Some? && side == "white" ==> newEp.value == (fr + 1, fc)) &&
      (newEp.Some? && side != "white" ==> newEp.value == (fr - 1, fc))
  {
    TokenParses(mv, fr, fc, tr, tc);
  }

  /** A token naming two squares fails only through an en-passant victim off the grid. */
  lemma {:induction false} WellFormedTokenSucceeds(g: seq<seq<char>>, mv: string, side: string, ep: Option<Coord>,
                                                   fr: nat, fc: nat, tr: nat, tc: nat)
    requires IsGrid(g) && TokenNames(mv, fr, fc, tr, tc)
    ensures Applied(g, mv, side, ep).Failure? <==>
      !IsCastling(g, fr, fc, tc) && EnPassantTest(g, fr, fc, tr, tc, fc, tc, ep) && VictimRow(side, tr) == 8
  {
    TokenParses(mv, fr, fc, tr, tc);
  }

  /** A token shorter than four characters always raises. */
  lemma {:induction false} ShortTokenFails(g: seq<seq<char>>, mv: string, side: string, ep: Option<Coord>)
    requires IsGrid(g) && |mv| < 4
    ensures Applied(g, mv, side, ep).Failure?
  {
  }

  /** board[r][c] = v. */
  method PutCell(board: array2<char>, r: nat, c: nat, v: char)
    requires board.Length0 == 8 && board.Length1 == 8 && r < 8 && c < 8
    modifies board
    ensures Cells(board) == Set(old(Cells(board)), r, c, v)
  {
    board[r, c] := v;
    GridExt(Cells(board), Set(old(Cells(board)), r, c, v));
  }

  /** The castling branch of apply_move (play.py:144-157). */
  method Castle(board: array2<char>, fi: nat, fj: nat, ti: nat, tj: nat, kingside: bool)
    requires board.Length0 == 8 && board.Length1 == 8 && fi < 8 && fj < 8 && ti < 8 && tj < 8
    modifies board
    ensures Cells(board) == CastledGrid(old(Cells(board)), fi, fj, ti, tj, kingside)
  {
    var rookFrom, rookTo := if kingside then 7 else 0, if kingside then 5 else 3;
    var piece := board[fi, fj];
    PutCell(board, ti, tj, piece);
    PutCell(board, fi, fj, '.');
    PutCell(board, ti, rookTo, board[ti, rookFrom]);
    PutCell(board, ti, rookFrom, '.');
  }

  /** The non-castling part of apply_move (play.py:159-189). */
  method Relocate(board: array2<char>, moveStr: string, side: string, epSquare: Option<Coord>,
                  fr: int, fc: int, tr: int, tc: int)
    returns (r: Result<Option<Coord>, PyError>)
    requires board.Length0 == 8 && board.Length1 == 8
    requires ValidIndex(fr) && ValidIndex(fc) && ValidIndex(tr) && ValidIndex(tc)
    modifies board
    ensures var expected := Relocated(old(Cells(board)), moveStr, side, epSquare, fr, fc, tr, tc);
      if expected.Success? then r == Success(expected.value.ep) && Cells(board) == expected.value.grid
      else r == Failure(expected.error) && Cells(board) == old(Cells(board))
  {
    var fi, fj, ti, tj := Wrap(fr), Wrap(fc), Wrap(tr), Wrap(tc);
    var piece := board[fi, fj];
    if Lower(piece) == 'p' && fc != tc && board[ti, tj] == '.' && epSquare.Some? {
      var vr := VictimRow(side, tr);
      if !ValidIndex(vr) {
        return Failure(IndexError);
      }
      PutCell(board, Wrap(vr), tj, '.');
    }
    PutCell(board, ti, tj, board[fi, fj]);
    PutCell(board, fi, fj, '.');
    if |moveStr| >= 5 {
      var pchar := Lower(moveStr[4]);
      if side == "black" {
        PutCell(board, ti, tj, Upper(pchar));
      } else {
        PutCell(board, ti, tj, pchar);
      }
    }
    var newEp: Option<Coord> := None;
    if Lower(piece) == 'p' && Abs(tr - fr) == 2 {
      if side == "white" {
        newEp := Some((fr + 1, fc));
      } else {
        newEp := Some((fr - 1, fc));
      }
    }
    return Success(newEp);
  }

  /** apply_move(board, move_str, side, ep_square) on the board array. */
  method ApplyMove(board: array2<char>, moveStr: string, side: string, epSquare: Option<Coord>)
    returns (r: Result<Option<Coord>, PyError>)
    requires board.Length0 == 8 && board.Length1 == 8
    modifies board
    ensures var expected := Applied(old(Cells(board)), moveStr, side, epSquare);
      if expected.Success? then r == Success(expected.value.ep) && Cells(board) == expected.value.grid
      else r == Failure(expected.error) && Cells(board) == old(Cells(board))
  {
    var fromSq := moveStr[..Min(2, |moveStr|)];
    var toSq := moveStr[Min(2, |moveStr|)..Min(4, |moveStr|)];
    var f := AlgebraicToCoords(fromSq);
    if f.Failure? {
      return Failure(f.error);
    }
    var t := AlgebraicToCoords(toSq);
    if t.Failure? {
      return Failure(t.error);
    }
    var fr, fc := f.value.0, f.value.1;
    var tr, tc := t.value.0, t.value.1;
    if !ValidIndex(fr) || !ValidIndex(fc) {
      return Failure(IndexError);
    }
    var piece := board[Wrap(fr), Wrap(fc)];
    // every later path indexes board[tr][tc] before it writes anything
    if !ValidIndex(tr) || !ValidIndex(tc) {
      return Failure(IndexError);
    }
    if Lower(piece) == 'k' && Abs(fc - tc) == 2 {
      Castle(board, Wrap(fr), Wrap(fc), Wrap(tr), Wrap(tc), tc == 6);
      return Success(None);
    }
    r := Relocate(board, moveStr, side, epSquare, fr, fc, tr, tc);
  }
}
