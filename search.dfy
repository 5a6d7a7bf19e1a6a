/**
 * The move-ordering part of the search (src/search.cpp): the piece values,
 * the simplified static exchange evaluation `see`, and the `MovePicker`,
 * which yields the hash move first and then the generated moves by
 * descending score, consuming each score it picks.
 */
module Search {
  import opened Types
  import opened Moves
  import opened Board
  import opened Positions
  import opened MoveGen
  import Syzygy

  /** The piece values by piece type, PAWN = 0 up to KING = 5. */
  const PIECE_VALUES: seq<int> := [100, 325, 325, 500, 975, 0]

  /** The initialiser list of `PieceValue` as it reads: seven values, a leading 0 in the pawn's slot. */
  const PIECE_VALUES_AS_WRITTEN: seq<int> := [0, 100, 325, 325, 500, 975, 0]

  function PieceValue(pt: PieceType): int
    requires pt < PIECE_TYPE_NB
  {
    PIECE_VALUES[pt]
  }

  /** The values rise from pawn to queen; the king is worth nothing. */
  lemma PieceValueOrder()
    ensures PieceValue(PAWN) == 100 && PieceValue(KING) == 0
    ensures PieceValue(PAWN) < PieceValue(KNIGHT) == PieceValue(BISHOP) < PieceValue(ROOK) < PieceValue(QUEEN)
    ensures forall pt :: 0 <= pt < PIECE_TYPE_NB ==> 0 <= PieceValue(pt) <= 975
  {
  }

  /**
   * `see` with a table of values: nothing for castling or en passant;
   * otherwise the value of the piece on the destination, plus the promotion
   * piece's value less a pawn's for a promotion.
   */
  function Gain(values: seq<int>, b: Mailbox, m: Move): int
    requires |values| >= PIECE_TYPE_NB
  {
    if m.Type() == CASTLING || m.Type() == EN_PASSANT then 0
    else
      var captured := b[m.To()];
      var gain := if captured == NO_PIECE then 0 else values[TypeOf(captured)];
      if m.Type() == PROMOTION then gain + values[m.PromotionPiece()] - values[PAWN] else gain
  }

  /**
   * `see(pos, m)` on the position's mailbox: castling and en passant are
   * worth 0, a quiet move 0, a capture the victim's value, and a promotion
   * also the promotion piece's value less a pawn's.
   */
  function See(b: Mailbox, m: Move): (v: int)
    ensures m.Type() == CASTLING || m.Type() == EN_PASSANT ==> v == 0
    ensures m.Type() == NORMAL ==> 0 <= v <= PieceValue(QUEEN) && (b[m.To()] == NO_PIECE ==> v == 0)
    ensures m.Type() == NORMAL && b[m.To()] != NO_PIECE ==> v == PieceValue(TypeOf(b[m.To()]))
    ensures m.Type() == PROMOTION && b[m.To()] == NO_PIECE ==> v == PieceValue(m.PromotionPiece()) - PieceValue(PAWN)
  {
    PieceValueOrder();
    Gain(PIECE_VALUES, b, m)
  }

  /**
   * `see` reading the table as its initialisers are written: any piece taken
   * counts as the piece type below it, so taking a pawn gains nothing and
   * taking a king counts as a queen.
   */
  function SeeAsWritten(b: Mailbox, m: Move): (v: int)
    ensures m.Type() == CASTLING || m.Type() == EN_PASSANT ==> v == 0
    ensures m.Type() == NORMAL && b[m.To()] != NO_PIECE && TypeOf(b[m.To()]) == PAWN ==> v == 0
    ensures m.Type() == NORMAL && b[m.To()] != NO_PIECE && TypeOf(b[m.To()]) != PAWN ==> v == PieceValue(TypeOf(b[m.To()]) - 1)
  {
    Gain(PIECE_VALUES_AS_WRITTEN, b, m)
  }

  /** What one piece on the board is worth to side c. */
  function Worth(p: Piece, c: Color): int
  {
    if p < PIECE_NB && ColorOf(p) == c then PieceValue(TypeOf(p)) else 0
  }

  /** The material of side c on the first n squares. */
  function Material(b: Mailbox, c: Color, n: nat): int
    requires n <= 64
  {
    if n == 0 then 0 else Material(b, c, n - 1) + Worth(b[n - 1], c)
  }

  /** Writing one square changes the material by the difference of the two pieces' worths. */
  lemma {:induction false} MaterialWrite(b: Mailbox, s: Sq, p: Piece, c: Color, n: nat)
    requires n <= 64
    ensures Material(b[s := p], c, n) == Material(b, c, n) + (if s < n then Worth(p, c) - Worth(b[s], c) else 0)
  {
    if n > 0 {
      MaterialWrite(b, s, p, c, n - 1);
    }
  }

  /** Lifting the mover and the captured piece of a normal move or promotion takes their worths off. */
  lemma {:induction false} LiftedMaterial(b: Mailbox, m: Move, us: Color, c: Color)
    requires MakeSafe(b, m, us) && (m.Type() == NORMAL || m.Type() == PROMOTION)
    ensures Material(Lifted(b, m, us), c, 64) ==
      Material(b, c, 64) - Worth(b[m.From()], c) - (if b[m.To()] != NO_PIECE then Worth(b[m.To()], c) else 0)
  {
    var from, to := m.From(), m.To();
    var b1 := b[from := NO_PIECE];
    MaterialWrite(b, from, NO_PIECE, c, 64);
    if b[to] != NO_PIECE {
      assert Lifted(b, m, us) == b1[to := NO_PIECE];
      MaterialWrite(b1, to, NO_PIECE, c, 64);
    }
  }

  /** After a normal move or promotion, the arriving piece's worth is added to the lifted board's. */
  lemma {:induction false} MovedMaterial(b: Mailbox, m: Move, us: Color, c: Color)
    requires MakeSafe(b, m, us) && (m.Type() == NORMAL || m.Type() == PROMOTION)
    ensures Material(MovedBoard(b, m, us), c, 64) ==
      Material(b, c, 64) - Worth(b[m.From()], c) - (if b[m.To()] != NO_PIECE then Worth(b[m.To()], c) else 0) +
      Worth(Arriving(b, m, us), c)
  {
    var lifted := Lifted(b, m, us);
    assert MovedBoard(b, m, us) == lifted[m.To() := Arriving(b, m, us)];
    assert lifted[m.To()] == NO_PIECE;
    LiftedMaterial(b, m, us, c);
    MaterialWrite(lifted, m.To(), Arriving(b, m, us), c, 64);
  }

  /**
   * For a normal move or a promotion onto an empty or enemy square, `see` is
   * the swing in material make_move causes: what the mover gains (the
   * promotion) plus what the opponent loses (the captured piece).
   */
  lemma {:induction false} SeeIsMaterialSwing(b: Mailbox, m: Move, us: Color)
    requires MakeSafe(b, m, us) && (m.Type() == NORMAL || m.Type() == PROMOTION)
    requires b[m.To()] == NO_PIECE || ColorOf(b[m.To()]) == 1 - us
    requires m.Type() == PROMOTION ==> TypeOf(b[m.From()]) == PAWN
    ensures var after := MovedBoard(b, m, us);
      See(b, m) == (Material(after, us, 64) - Material(b, us, 64)) + (Material(b, 1 - us, 64) - Material(after, 1 - us, 64))
  {
    var them := 1 - us;
    MovedMaterial(b, m, us, us);
    MovedMaterial(b, m, us, them);
    var arriving := Arriving(b, m, us);
    if m.Type() == PROMOTION {
      assert Worth(arriving, us) == PieceValue(m.PromotionPiece()) && Worth(arriving, them) == 0;
    } else {
      assert arriving == b[m.From()];
    }
  }

  const E4: Sq := 28
  const D5: Sq := 35

  /**
   * The table as written is one slot off: a pawn is worth nothing, a knight
   * what a pawn should be, the king what a queen should be; so `see` of a
   * pawn capturing a pawn reads 0 instead of 100.
   */
  lemma {:induction false} PieceValueShifted(b: Mailbox)
    requires b[D5] == MakePiece(BLACK, PAWN)
    ensures forall pt :: KNIGHT <= pt < PIECE_TYPE_NB ==> PIECE_VALUES_AS_WRITTEN[pt] == PieceValue(pt - 1)
    ensures PIECE_VALUES_AS_WRITTEN[PAWN] == 0 && PIECE_VALUES_AS_WRITTEN[KING] == PieceValue(QUEEN)
    ensures SeeAsWritten(b, NormalMove(E4, D5)) == 0 && See(b, NormalMove(E4, D5)) == 100
  {
    var m := NormalMove(E4, D5);
    assert m.To() == D5 && m.Type() == NORMAL;
  }

  const HASH_MOVE_SCORE: int := 2000000
  const QUEEN_PROMOTION_SCORE: int := 1000000
  const CAPTURE_SCORE: int := 100000
  const FIRST_KILLER_SCORE: int := 90000
  const SECOND_KILLER_SCORE: int := 80000
  /** The score a generated move equal to the hash move gets. */
  const LISTED_HASH_SCORE: int := -1
  /** The score that marks a move as already picked; no lower score is ever picked. */
  const CONSUMED: int := -10000000

  /**
   * `MovePicker::score`: the hash move, a queen promotion, a capture by
   * MVV/LVA, the two killers of the picker's ply, and otherwise the side's
   * history counter for the move's squares.
   */
  function MoveScore(b: Mailbox, side: Color, hashMove: Move, killers: (Move, Move), history: (Color, Sq, Sq) -> int, m: Move): int
  {
    if m == hashMove then HASH_MOVE_SCORE
    else if m.Type() == PROMOTION && m.PromotionPiece() == QUEEN then QUEEN_PROMOTION_SCORE
    else if Syzygy.IsCapture(b, m) then CAPTURE_SCORE + PieceValue(TypeOf(b[m.To()])) * 10 - PieceValue(TypeOf(b[m.From()]))
    else if m == killers.0 then FIRST_KILLER_SCORE
    else if m == killers.1 then SECOND_KILLER_SCORE
    else history(side, m.From(), m.To())
  }

  /**
   * `MovePicker::score` reading `PieceValue` as its initialisers are
   * written, the same reading as SeeAsWritten: each victim and attacker
   * counts as the type below it, and the knight's slot is the pawn's 100.
   */
  function MoveScoreAsWritten(b: Mailbox, side: Color, hashMove: Move, killers: (Move, Move), history: (Color, Sq, Sq) -> int, m: Move): int
  {
    if m == hashMove then HASH_MOVE_SCORE
    else if m.Type() == PROMOTION && m.PromotionPiece() == QUEEN then QUEEN_PROMOTION_SCORE
    else if Syzygy.IsCapture(b, m) then
      CAPTURE_SCORE + PIECE_VALUES_AS_WRITTEN[TypeOf(b[m.To()])] * 10 - PIECE_VALUES_AS_WRITTEN[TypeOf(b[m.From()])]
    else if m == killers.0 then FIRST_KILLER_SCORE
    else if m == killers.1 then SECOND_KILLER_SCORE
    else history(side, m.From(), m.To())
  }

  /**
   * Where the two readings of the table part: as written, taking a bishop
   * scores 2250 above taking a knight with the same attacker, where one value
   * per type scores them alike; and a pawn's en-passant capture, whose
   * destination is empty (NO_PIECE, which type_of reads as a knight), scores
   * 100000 + 1000 as written against 100000 + 3250 - 100.
   */
  lemma VictimOrderAsWritten(b: Mailbox, side: Color, hashMove: Move, killers: (Move, Move), history: (Color, Sq, Sq) -> int, m1: Move, m2: Move)
    requires Priority(b, hashMove, killers, m1) == 2 && Priority(b, hashMove, killers, m2) == 2
    ensures TypeOf(b[m1.From()]) == TypeOf(b[m2.From()]) && TypeOf(b[m1.To()]) == BISHOP && TypeOf(b[m2.To()]) == KNIGHT ==>
      MoveScoreAsWritten(b, side, hashMove, killers, history, m1) == MoveScoreAsWritten(b, side, hashMove, killers, history, m2) + 2250 &&
      MoveScore(b, side, hashMove, killers, history, m1) == MoveScore(b, side, hashMove, killers, history, m2)
    ensures b[m1.To()] == NO_PIECE && TypeOf(b[m1.From()]) == PAWN ==>
      MoveScoreAsWritten(b, side, hashMove, killers, history, m1) == CAPTURE_SCORE + 1000 &&
      MoveScore(b, side, hashMove, killers, history, m1) == CAPTURE_SCORE + 3150
  {
  }

  /** The ordering class of a move: 0 hash move, 1 queen promotion, 2 capture, 3 and 4 killers, 5 quiet. */
  function Priority(b: Mailbox, hashMove: Move, killers: (Move, Move), m: Move): nat
  {
    if m == hashMove then 0
    else if m.Type() == PROMOTION && m.PromotionPiece() == QUEEN then 1
    else if Syzygy.IsCapture(b, m) then 2
    else if m == killers.0 then 3
    else if m == killers.1 then 4
    else 5
  }

  /** Every capture scores between the killers and the queen promotions. */
  lemma {:induction false} CaptureScoreRange(b: Mailbox, side: Color, hashMove: Move, killers: (Move, Move), history: (Color, Sq, Sq) -> int, m: Move)
    requires Priority(b, hashMove, killers, m) == 2
    ensures FIRST_KILLER_SCORE < CAPTURE_SCORE - 975 <= MoveScore(b, side, hashMove, killers, history, m) <= CAPTURE_SCORE + 9750 < QUEEN_PROMOTION_SCORE
  {
    PieceValueOrder();
  }

  /**
   * The classes are strictly ordered by score, provided the history
   * counters of the quiet moves stay below the second killer's score.
   */
  lemma {:induction false} ScoreFollowsPriority(b: Mailbox, side: Color, hashMove: Move, killers: (Move, Move), history: (Color, Sq, Sq) -> int, m1: Move, m2: Move)
    requires history(side, m1.From(), m1.To()) < SECOND_KILLER_SCORE && history(side, m2.From(), m2.To()) < SECOND_KILLER_SCORE
    requires Priority(b, hashMove, killers, m1) < Priority(b, hashMove, killers, m2)
    ensures MoveScore(b, side, hashMove, killers, history, m1) > MoveScore(b, side, hashMove, killers, history, m2)
  {
    var p1, p2 := Priority(b, hashMove, killers, m1), Priority(b, hashMove, killers, m2);
    if p1 == 2 {
      CaptureScoreRange(b, side, hashMove, killers, history, m1);
    }
    if p2 == 2 {
      CaptureScoreRange(b, side, hashMove, killers, history, m2);
    }
  }

  /** Among captures, the more valuable victim always comes first; for equal victims, the cheaper attacker. */
  lemma {:induction false} MostValuableVictimFirst(b: Mailbox, side: Color, hashMove: Move, killers: (Move, Move), history: (Color, Sq, Sq) -> int, m1: Move, m2: Move)
    requires Priority(b, hashMove, killers, m1) == 2 && Priority(b, hashMove, killers, m2) == 2
    ensures PieceValue(TypeOf(b[m1.To()])) > PieceValue(TypeOf(b[m2.To()])) ==>
      MoveScore(b, side, hashMove, killers, history, m1) > MoveScore(b, side, hashMove, killers, history, m2)
    ensures PieceValue(TypeOf(b[m1.To()])) == PieceValue(TypeOf(b[m2.To()])) ==>
      (MoveScore(b, side, hashMove, killers, history, m1) > MoveScore(b, side, hashMove, killers, history, m2) <==>
       PieceValue(TypeOf(b[m1.From()])) < PieceValue(TypeOf(b[m2.From()])))
  {
    var v1, v2 := TypeOf(b[m1.To()]), TypeOf(b[m2.To()]);
    var a1, a2 := TypeOf(b[m1.From()]), TypeOf(b[m2.From()]);
    PieceValueOrder();
    if PieceValue(v1) > PieceValue(v2) {
      assert PieceValue(v1) >= PieceValue(v2) + 100 by {
        assert PieceValue(v1) in {100, 325, 500, 975} && PieceValue(v2) in {0, 100, 325, 500};
      }
    }
  }

  /** The score a generated move gets: -1 for the hash move, its `score` otherwise. */
  function ListScore(b: Mailbox, side: Color, hashMove: Move, killers: (Move, Move), history: (Color, Sq, Sq) -> int, m: Move): int
  {
    if m == hashMove then LISTED_HASH_SCORE else MoveScore(b, side, hashMove, killers, history, m)
  }

  /** The scores of the generated moves, in list order. */
  function ListScores(b: Mailbox, side: Color, hashMove: Move, killers: (Move, Move), history: (Color, Sq, Sq) -> int, ms: seq<Move>): (r: seq<int>)
    ensures |r| == |ms|
  {
    if ms == [] then []
    else ListScores(b, side, hashMove, killers, history, ms[..|ms| - 1]) + [ListScore(b, side, hashMove, killers, history, ms[|ms| - 1])]
  }

  /** Entry i of the list scores is the list score of move i. */
  lemma {:induction false} ListScoresAt(b: Mailbox, side: Color, hashMove: Move, killers: (Move, Move), history: (Color, Sq, Sq) -> int, ms: seq<Move>, i: int)
    requires 0 <= i < |ms|
    ensures ListScores(b, side, hashMove, killers, history, ms)[i] == ListScore(b, side, hashMove, killers, history, ms[i])
  {
    if i < |ms| - 1 {
      ListScoresAt(b, side, hashMove, killers, history, ms[..|ms| - 1], i);
    }
  }

  /** A hash move in the list is scored -1, which is above CONSUMED, so it is picked again after the others. */
  lemma {:induction false} ListedHashStaysLive(b: Mailbox, side: Color, hashMove: Move, killers: (Move, Move), history: (Color, Sq, Sq) -> int, ms: seq<Move>, i: int)
    requires 0 <= i < |ms| && ms[i] == hashMove
    ensures ListScores(b, side, hashMove, killers, history, ms)[i] == LISTED_HASH_SCORE > CONSUMED
  {
    ListScoresAt(b, side, hashMove, killers, history, ms, i);
  }

  /** Nothing left to pick: every score is at or below CONSUMED. */
  predicate AllConsumed(s: seq<int>)
  {
    forall j :: 0 <= j < |s| ==> s[j] <= CONSUMED
  }

  /** Index i holds the first strict maximum of s, and it is above CONSUMED. */
  predicate IsPick(s: seq<int>, i: int)
  {
    0 <= i < |s| && s[i] > CONSUMED &&
    (forall j :: 0 <= j < i ==> s[j] < s[i]) &&
    (forall j :: i < j < |s| ==> s[j] <= s[i])
  }

  /** The pick is unique. */
  lemma {:induction false} PickUnique(s: seq<int>, i: int, k: int)
    requires IsPick(s, i) && IsPick(s, k)
    ensures i == k
  {
  }

  /** There is a pick exactly when not everything is consumed. */
  lemma {:induction false} PickExists(s: seq<int>)
    ensures !AllConsumed(s) <==> exists i :: IsPick(s, i)
  {
    if !AllConsumed(s) {
      var j :| 0 <= j < |s| && s[j] > CONSUMED;
      var i := FirstMax(s, j);
      assert IsPick(s, i);
    }
  }

  /** The first index of the maximum of s, found from a witness j. */
  function FirstMax(s: seq<int>, j: int): (i: int)
    requires 0 <= j < |s|
    ensures 0 <= i < |s| && s[i] >= s[j]
    ensures forall k :: 0 <= k < i ==> s[k] < s[i]
    ensures forall k :: i < k < |s| ==> s[k] <= s[i]
    decreases |s|
  {
    if |s| == 1 then 0
    else
      var rest := s[..|s| - 1];
      var last := s[|s| - 1];
      if j == |s| - 1 then
        if exists k :: 0 <= k < |s| - 1 && s[k] >= last then
          var k :| 0 <= k < |s| - 1 && s[k] >= last;
          var i := FirstMax(rest, k);
          assert forall k' :: 0 <= k' < |rest| ==> rest[k'] == s[k'];
          i
        else
          |s| - 1
      else
        var i := FirstMax(rest, j);
        assert forall k' :: 0 <= k' < |rest| ==> rest[k'] == s[k'];
        if last > s[i] then |s| - 1 else i
  }

  /** The number of scores still above CONSUMED. */
  function Live(s: seq<int>): nat
  {
    if s == [] then 0 else Live(s[..|s| - 1]) + (if s[|s| - 1] > CONSUMED then 1 else 0)
  }

  /** Consuming a live score lowers the live count by one. */
  lemma {:induction false} ConsumeLowersLive(s: seq<int>, i: int)
    requires 0 <= i < |s| && s[i] > CONSUMED
    ensures Live(s[i := CONSUMED]) == Live(s) - 1
    decreases |s|
  {
    var t := s[i := CONSUMED];
    if i < |s| - 1 {
      assert t[..|t| - 1] == s[..|s| - 1][i := CONSUMED];
      ConsumeLowersLive(s[..|s| - 1], i);
    } else {
      assert t[..|t| - 1] == s[..|s| - 1];
    }
  }

  /** None is live exactly when everything is consumed. */
  lemma {:induction false} NoneLive(s: seq<int>)
    ensures Live(s) == 0 <==> AllConsumed(s)
    decreases |s|
  {
    if s != [] {
      NoneLive(s[..|s| - 1]);
      assert forall j :: 0 <= j < |s| - 1 ==> s[..|s| - 1][j] == s[j];
    }
  }

  /** The selection loop of `next`: the index of the first strict maximum above CONSUMED, or -1. */
  method SelectBest(scores: array<int>, n: int) returns (best: int)
    requires 0 <= n <= scores.Length
    ensures best == -1 <==> AllConsumed(scores[..n])
    ensures best != -1 ==> IsPick(scores[..n], best)
  {
    best := -1;
    var maxVal := CONSUMED;
    var i := 0;
    while i < n
      invariant 0 <= i <= n
      invariant best == -1 ==> maxVal == CONSUMED && forall j :: 0 <= j < i ==> scores[j] <= CONSUMED
      invariant best != -1 ==> 0 <= best < i && maxVal == scores[best] > CONSUMED
      invariant best != -1 ==> forall j :: 0 <= j < best ==> scores[j] < maxVal
      invariant best != -1 ==> forall j :: best < j < i ==> scores[j] <= maxVal
    {
      if scores[i] > maxVal {
        maxVal := scores[i];
        best := i;
      }
      i := i + 1;
    }
  }

  /**
   * `MovePicker`: the position it orders moves for, the hash move, the ply
   * (`depth`) whose killers it reads, the generated moves with their scores,
   * and the phase: 0 before the hash move, 1 before generation, 2 selecting.
   * `picked` records the indices the selection has returned.
   */
  class MovePicker {
    const pos: Position
    const hashMove: Move
    const depth: int
    const moves: MoveList
    const scores: array<int>
    var cur: int
    var phase: int
    ghost var picked: set<int>

    ghost predicate Valid()
      reads this, moves, scores
    {
      moves.Valid() && scores.Length == MAX_MOVES && 0 <= phase <= 2 &&
      (phase < 2 ==> moves.count == 0 && picked == {}) &&
      (forall i :: i in picked ==> 0 <= i < moves.count && scores[i] == CONSUMED)
    }

    /** `MovePicker(p, hm, d)`: phase 0, nothing generated. */
    constructor (p: Position, hm: Move, d: int)
      ensures Valid() && pos == p && hashMove == hm && depth == d
      ensures phase == 0 && cur == 0 && moves.count == 0 && picked == {}
      ensures fresh(moves) && fresh(moves.moves) && fresh(scores)
    {
      pos, hashMove, depth := p, hm, d;
      moves := new MoveList();
      scores := new int[MAX_MOVES];
      cur, phase := 0, 0;
      picked := {};
    }

    /** Phase 0 yields the hash move when it is a move and pseudo-legal. */
    ghost predicate HashFirst()
      requires pos.Valid()
      reads this, pos, pos.board, pos.colorBB, pos.typeBB
    {
      phase == 0 && hashMove != NoMove() && pos.IsPseudoLegal(hashMove)
    }

    /** `score(m)`, with the killers of this ply and the history table as they are when it runs. */
    method Score(m: Move, killers: (Move, Move), history: (Color, Sq, Sq) -> int) returns (r: int)
      requires pos.Valid()
      ensures r == MoveScore(pos.board[..], pos.side, hashMove, killers, history, m)
    {
      if m == hashMove {
        return HASH_MOVE_SCORE;
      }
      if m.Type() == PROMOTION && m.PromotionPiece() == QUEEN {
        return QUEEN_PROMOTION_SCORE;
      }
      if pos.PieceOn(m.To()) != NO_PIECE || m.Type() == EN_PASSANT {
        var attacker := pos.PieceOn(m.From());
        var victim := pos.PieceOn(m.To());
        return CAPTURE_SCORE + PieceValue(TypeOf(victim)) * 10 - PieceValue(TypeOf(attacker));
      }
      if m == killers.0 {
        return FIRST_KILLER_SCORE;
      }
      if m == killers.1 {
        return SECOND_KILLER_SCORE;
      }
      return history(pos.side, m.From(), m.To());
    }

    /** The scoring loop of phase 1: -1 for the hash move, `score` for every other move. */
    method ScoreMoves(killers: (Move, Move), history: (Color, Sq, Sq) -> int)
      requires pos.Valid() && moves.Valid() && scores.Length == MAX_MOVES
      modifies scores
      ensures scores[..moves.count] == ListScores(pos.board[..], pos.side, hashMove, killers, history, moves.Contents())
      ensures scores[moves.count..] == old(scores[moves.count..])
    {
      ghost var ms := moves.Contents();
      var i := 0;
      while i < moves.count
        invariant 0 <= i <= moves.count
        invariant forall j :: 0 <= j < i ==> scores[j] == ListScore(pos.board[..], pos.side, hashMove, killers, history, ms[j])
        invariant scores[moves.count..] == old(scores[moves.count..])
      {
        if moves.moves[i] == hashMove {
          scores[i] := LISTED_HASH_SCORE;
        } else {
          scores[i] := Score(moves.moves[i], killers, history);
        }
        i := i + 1;
      }
      forall j | 0 <= j < moves.count
        ensures scores[j] == ListScores(pos.board[..], pos.side, hashMove, killers, history, ms)[j]
      {
        ListScoresAt(pos.board[..], pos.side, hashMove, killers, history, ms, j);
      }
    }

    /**
     * What one selection step did to the scores s it started from: with a
     * live score left, it yielded the move at the pick, consumed that score
     * and recorded the index; with none, it yielded nothing and left m0.
     */
    ghost predicate SelectedFrom(s: seq<int>, picked0: set<int>, ok: bool, m: Move, m0: Move, index: int)
      requires Valid() && |s| == moves.count
      reads this, moves, moves.moves, scores
    {
      (ok <==> !AllConsumed(s)) &&
      (ok ==> IsPick(s, index) && m == moves.Contents()[index] && scores[..moves.count] == s[index := CONSUMED] &&
              index !in picked0 && picked == picked0 + {index} && Live(scores[..moves.count]) == Live(s) - 1) &&
      (!ok ==> m == m0 && index == -1 && scores[..moves.count] == s && picked == picked0)
    }

    /** Phase 1: generate every move and score the list. */
    method Prepare(killers: (Move, Move), history: (Color, Sq, Sq) -> int, ghost b: Mailbox, ghost all: seq<Move>)
      requires Valid() && pos.Valid() && b == pos.board[..] && phase == 1 && all == GeneratedFor(pos, ALL) && |all| <= MAX_MOVES
      modifies this`phase, moves, moves.moves, scores
      ensures Valid() && phase == 2 && picked == {}
      ensures moves.Contents() == all
      ensures scores[..moves.count] == ListScores(b, old(pos.side), hashMove, killers, history, moves.Contents())
    {
      Generate(pos, ALL, moves);
      ScoreMoves(killers, history);
      phase := 2;
    }

    /** Phase 2: yield the first strict maximum above CONSUMED and consume its score. */
    method Select(m0: Move) returns (ok: bool, m: Move, ghost index: int)
      requires Valid() && phase == 2
      modifies this`picked, scores
      ensures Valid() && phase == 2
      ensures SelectedFrom(old(scores[..moves.count]), old(picked), ok, m, m0, index)
    {
      ghost var s := scores[..moves.count];
      var best := SelectBest(scores, moves.count);
      if best != -1 {
        m := moves.moves[best];
        scores[best] := CONSUMED;
        index := best;
        picked := picked + {best};
        ConsumeLowersLive(s, best);
        assert scores[..moves.count] == s[best := CONSUMED];
        return true, m, index;
      }
      return false, m0, -1;
    }

    /**
     * `next(m)`. Phase 0 yields a pseudo-legal hash move; otherwise the list
     * is generated and scored once (moving from phase 1 to 2), and then one
     * selection step runs on the scores, which `scored` names. The ghost
     * arguments name the board and the full move list of the position.
     */
    method Next(m0: Move, killers: (Move, Move), history: (Color, Sq, Sq) -> int, ghost b: Mailbox, ghost all: seq<Move>)
      returns (ok: bool, m: Move, ghost index: int, ghost scored: seq<int>)
      requires Valid() && pos.Valid() && b == pos.board[..]
      requires phase < 2 ==> all == GeneratedFor(pos, ALL) && |all| <= MAX_MOVES
      modifies this`phase, this`picked, moves, moves.moves, scores
      ensures Valid()
      ensures old(HashFirst()) ==> ok && m == hashMove && index == -1 && phase == 1 && moves.count == 0 && picked == {}
      ensures !old(HashFirst()) ==> phase == 2
      ensures !old(HashFirst()) && old(phase) < 2 ==> moves.Contents() == all
      ensures !old(HashFirst()) && old(phase) == 2 ==> moves.Contents() == old(moves.Contents())
      ensures !old(HashFirst()) && old(phase) < 2 ==>
        scored == ListScores(b, old(pos.side), hashMove, killers, history, all)
      ensures !old(HashFirst()) && old(phase) == 2 ==> scored == old(scores[..moves.count])
      ensures !old(HashFirst()) ==> |scored| == moves.count && SelectedFrom(scored, old(picked), ok, m, m0, index)
    {
      if phase == 0 {
        var legal := hashMove != NoMove() && pos.IsPseudoLegal(hashMove);
        phase := 1;
        if legal {
          return true, hashMove, -1, [];
        }
      }
      if phase == 1 {
        Prepare(killers, history, b, all);
      }
      scored := scores[..moves.count];
      ok, m, index := Select(m0);
    }
  }
}
