/**
 * The `moves` part of the position command in UCI::loop (src/uci.cpp): each
 * move is written in coordinate notation ("e2e4", "e7e8q"), a token is
 * matched against the strings of the generated moves, and the first match
 * is played, then taken back if it leaves the mover's king attacked.
 */
module UciMoves {
  import opened Wrappers
  import opened Types
  import opened Moves
  import opened PyText
  import opened CppText
  import opened Bits
  import opened Bitboards
  import opened Board
  import opened Positions
  import opened MoveGen
  import opened Uci
  import Tracker

  // ----- move strings -----

  /** A square as the loop writes it: the file letter from 'a', then `std::to_string` of the rank from 1. */
  function SquareString(s: Sq): string
  {
    [('a' as int + s % 8) as char] + IntToString(s / 8 + 1)
  }

  /** The suffix of a promotion: q, r, b or n, and nothing for any other piece type. */
  function PromotionSuffix(pt: PieceType): string
  {
    if pt == QUEEN then "q"
    else if pt == ROOK then "r"
    else if pt == BISHOP then "b"
    else if pt == KNIGHT then "n"
    else ""
  }

  /** The string the loop builds for a generated move. */
  function MoveString(m: Move): string
  {
    var base := SquareString(m.From()) + SquareString(m.To());
    if m.Type() == PROMOTION then base + PromotionSuffix(m.PromotionPiece()) else base
  }

  /** The rank number of a square is one digit. */
  lemma {:induction false} SquareDigits(s: Sq)
    ensures SquareString(s) == Tracker.SquareName(RankOf(s), FileOf(s))
  {
    var k := s / 8 + 1;
    assert IntToString(k) == NatToString(k) == ['0' + (k % 10) as char];
  }

  /** The promotion letter of each promotion piece. */
  function PromotionLetter(pt: PieceType): char
  {
    if pt == QUEEN then 'q' else if pt == ROOK then 'r' else if pt == BISHOP then 'b' else 'n'
  }

  /**
   * A move string is the two square names, as the driver writes them, and
   * for a promotion one more letter naming the piece.
   */
  lemma {:induction false} MoveStringShape(m: Move)
    ensures var s := MoveString(m);
      |s| == (if m.Type() == PROMOTION then 5 else 4) &&
      s[..2] == Tracker.SquareName(RankOf(m.From()), FileOf(m.From())) &&
      s[2..4] == Tracker.SquareName(RankOf(m.To()), FileOf(m.To())) &&
      (m.Type() == PROMOTION ==> s[4] == PromotionLetter(m.PromotionPiece()))
  {
    SquareDigits(m.From());
    SquareDigits(m.To());
    var s := MoveString(m);
    var a, b := SquareString(m.From()), SquareString(m.To());
    assert s[..4] == a + b;
    assert (a + b)[..2] == a && (a + b)[2..4] == b;
  }

  /** The driver reads the engine's move string back as the move's two squares. */
  lemma {:induction false} DriverReadsMoveString(m: Move)
    ensures Tracker.ParseToken(MoveString(m)) ==
      Success(((RankOf(m.From()), FileOf(m.From())), (RankOf(m.To()), FileOf(m.To()))))
  {
    MoveStringShape(m);
    Tracker.TokenParses(MoveString(m), RankOf(m.From()), FileOf(m.From()), RankOf(m.To()), FileOf(m.To()));
  }

  /** Two moves have the same string when they have the same squares and the same promotion, if any. */
  predicate SameRendering(m1: Move, m2: Move)
  {
    m1.From() == m2.From() && m1.To() == m2.To() &&
    (m1.Type() == PROMOTION <==> m2.Type() == PROMOTION) &&
    (m1.Type() == PROMOTION ==> m1.PromotionPiece() == m2.PromotionPiece())
  }

  lemma {:induction false} MoveStringsEqual(m1: Move, m2: Move)
    ensures MoveString(m1) == MoveString(m2) <==> SameRendering(m1, m2)
  {
    MoveStringShape(m1);
    MoveStringShape(m2);
    var s1, s2 := MoveString(m1), MoveString(m2);
    if s1 == s2 {
      Tracker.CoordsRoundTrip(RankOf(m1.From()), FileOf(m1.From()), s1[..2]);
      SquareNameInjective(m1.From(), m2.From());
      SquareNameInjective(m1.To(), m2.To());
      if m1.Type() == PROMOTION {
        assert s1[4] == s2[4];
      }
    }
  }

  /** Different squares have different names. */
  lemma {:induction false} SquareNameInjective(s: Sq, t: Sq)
    ensures Tracker.SquareName(RankOf(s), FileOf(s)) == Tracker.SquareName(RankOf(t), FileOf(t)) ==> s == t
  {
    var a, b := Tracker.SquareName(RankOf(s), FileOf(s)), Tracker.SquareName(RankOf(t), FileOf(t));
    if a == b {
      assert a[0] == b[0] && a[1] == b[1];
      assert s == 8 * RankOf(s) + FileOf(s);
    }
  }

  // ----- matching a token -----

  /** The first move of ms whose string is token, or Move::none(). */
  function FindMove(ms: seq<Move>, token: string): (m: Move)
    ensures m == NoMove() || (m in ms && MoveString(m) == token)
    ensures (exists i :: 0 <= i < |ms| && MoveString(ms[i]) == token) ==> MoveString(m) == token
  {
    if ms == [] then NoMove()
    else if MoveString(ms[0]) == token then ms[0]
    else
      assert forall i :: 1 <= i < |ms| ==> ms[i] == ms[1..][i - 1];
      FindMove(ms[1..], token)
  }

  /** The first match is the one taken. */
  lemma {:induction false} FindMoveFirst(ms: seq<Move>, token: string, i: nat)
    requires i < |ms| && MoveString(ms[i]) == token
    requires forall j :: 0 <= j < i ==> MoveString(ms[j]) != token
    ensures FindMove(ms, token) == ms[i]
    decreases i
  {
    if i > 0 {
      assert forall j :: 0 <= j < i - 1 ==> ms[1..][j] == ms[j + 1];
      FindMoveFirst(ms[1..], token, i - 1);
    }
  }

  /** The string of a generated move finds a move with its squares and its promotion. */
  lemma {:induction false} TokenOfMoveFound(ms: seq<Move>, m: Move)
    requires m in ms
    ensures SameRendering(FindMove(ms, MoveString(m)), m)
  {
    MoveStringsEqual(FindMove(ms, MoveString(m)), m);
  }

  /** The loop over the generated moves, stopping at the first match. */
  method FindMoveIn(list: MoveList, token: string) returns (m: Move)
    requires list.Valid()
    ensures m == FindMove(list.Contents(), token)
  {
    ghost var ms := list.Contents();
    m := NoMove();
    var i := 0;
    while i < list.count
      invariant 0 <= i <= list.count
      invariant FindMove(ms, token) == FindMove(ms[i..], token)
    {
      var c := list.moves[i];
      assert c == ms[i..][0];
      if MoveString(c) == token {
        m := c;
        return;
      }
      assert ms[i..][1..] == ms[i + 1..];
      i := i + 1;
    }
    assert ms[i..] == [];
  }

  // ----- playing one token -----

  /** After the move, the mover's king (the lowest one, as lsb finds it) is attacked. */
  ghost predicate KingLeftAttacked(b: Mailbox, us: Color)
  {
    var k := Lsb(PiecesOf(b, us, KING));
    k != SQ_NONE && Attacked(b, k, 1 - us)
  }

  /** What one token works on: the board, the side to move, the castling rights and the en-passant square. */
  datatype Setting = Setting(board: Mailbox, side: Color, rights: nat, ep: Square)

  ghost function SettingOf(pos: Position): Setting
    requires pos.Valid()
    reads pos, pos.board, pos.colorBB, pos.typeBB
  {
    Setting(pos.board[..], pos.side, pos.Top().castleRights, pos.Top().epSquare)
  }

  /** The move a token names in a setting: the first generated move with that string. */
  ghost function TokenMove(g: Setting, token: string): Move
  {
    FindMove(Generated(g.board, g.side, g.rights, g.ep, ALL), token)
  }

  /**
   * What this model needs to play the token: the generated moves fit the
   * move list, and a matched move is one make_move and unmake_move handle.
   */
  ghost predicate TokenSafe(g: Setting, token: string)
  {
    |Generated(g.board, g.side, g.rights, g.ep, ALL)| <= MAX_MOVES &&
    (TokenMove(g, token) != NoMove() ==> Reversible(g.board, TokenMove(g, token), g.side))
  }

  /** Whether the token's move stays played: it was found and does not leave the mover's king attacked. */
  ghost predicate Kept(g: Setting, token: string)
    requires TokenSafe(g, token)
  {
    var m := TokenMove(g, token);
    m != NoMove() && !KingLeftAttacked(MovedBoard(g.board, m, g.side), g.side)
  }

  /** The setting make_move leaves: the moved board, the other side, the masked rights and the new en-passant square. */
  ghost function MadeSetting(g: Setting, m: Move): Setting
    requires MakeSafe(g.board, m, g.side)
  {
    Setting(MovedBoard(g.board, m, g.side), 1 - g.side,
            BitAnd(BitAnd(g.rights, CastlePerm[m.From()]), CastlePerm[m.To()]), MadeEp(g.board, m))
  }

  /** The setting after the token: moved, or as it was. */
  ghost function AfterToken(g: Setting, token: string): Setting
    requires TokenSafe(g, token)
  {
    var m := TokenMove(g, token);
    if Kept(g, token) then MadeSetting(g, m) else g
  }

  /**
   * The body of the moves loop for one token. A token that matches no
   * generated move changes nothing; a matched move is made, and unmade again
   * when the mover's king is then attacked (make_move also moves the history
   * index, and unmake_move always moves it back by one).
   */
  method ApplyMoveToken(pos: Position, token: string, ghost g: Setting) returns (kept: bool)
    requires pos.Valid() && 0 <= pos.historyIndex && g == SettingOf(pos) && TokenSafe(g, token)
    modifies pos, pos.board, pos.colorBB, pos.typeBB, pos.hashHistory
    ensures pos.Valid() && SettingOf(pos) == AfterToken(g, token)
    ensures kept == Kept(g, token)
    ensures Pushed(old(pos.states), pos.states, kept)
    ensures pos.Gap() == old(pos.Gap()) && 0 <= pos.historyIndex
  {
    var m := MatchToken(pos, token, g);
    TokenOutcome(g, token);
    if m != NoMove() {
      kept := MakeChecked(pos, m, g);
    } else {
      kept := false;
    }
  }

  /** Kept and AfterToken spelled out for the token's move. */
  lemma {:induction false} TokenOutcome(g: Setting, token: string)
    requires TokenSafe(g, token)
    ensures var m := TokenMove(g, token);
      (Kept(g, token) <==> m != NoMove() && !KingLeftAttacked(MovedBoard(g.board, m, g.side), g.side)) &&
      (m != NoMove() ==> Reversible(g.board, m, g.side)) &&
      AfterToken(g, token) == if Kept(g, token) then MadeSetting(g, m) else g
  {
  }

  /** The state stack after a token: one record pushed when the move was kept, the same stack otherwise. */
  ghost predicate Pushed(s0: seq<StateInfo>, s1: seq<StateInfo>, kept: bool)
  {
    (kept ==> |s1| == |s0| + 1 && s1[..|s0|] == s0) && (!kept ==> s1 == s0)
  }

  /** Either way the old stack is a prefix of the new one. */
  lemma {:induction false} PushedPrefix(s0: seq<StateInfo>, s1: seq<StateInfo>, kept: bool)
    requires Pushed(s0, s1, kept)
    ensures |s1| >= |s0| && s1[..|s0|] == s0
  {
    if !kept {
      assert s1[..|s0|] == s0;
    }
  }

  /** `generate<ALL>` into a fresh list, then the first move whose string is the token. */
  method MatchToken(pos: Position, token: string, ghost g: Setting) returns (m: Move)
    requires pos.Valid() && g == SettingOf(pos) && |Generated(g.board, g.side, g.rights, g.ep, ALL)| <= MAX_MOVES
    ensures m == TokenMove(g, token)
  {
    var list := new MoveList();
    Generate(pos, ALL, list);
    assert list.Contents() == Generated(g.board, g.side, g.rights, g.ep, ALL);
    m := FindMoveIn(list, token);
  }

  /**
   * make_move, then the check on the mover's king (`pieces(side ^ 1, KING)`
   * once the side has flipped), and unmake_move when it is attacked.
   */
  method MakeChecked(pos: Position, m: Move, ghost g: Setting) returns (kept: bool)
    requires pos.Valid() && 0 <= pos.historyIndex && g == SettingOf(pos) && Reversible(g.board, m, g.side)
    modifies pos, pos.board, pos.colorBB, pos.typeBB, pos.hashHistory
    ensures pos.Valid() && 0 <= pos.historyIndex && pos.Gap() == old(pos.Gap())
    ensures kept == !KingLeftAttacked(MovedBoard(g.board, m, g.side), g.side)
    ensures kept ==> SettingOf(pos) == MadeSetting(g, m)
    ensures Pushed(old(pos.states), pos.states, kept)
    ensures !kept ==> SettingOf(pos) == g
  {
    ghost var states0 := pos.states;
    ghost var gap0 := KeyGap(pos.keys, pos.Top().key, g.board, g.side, g.rights, g.ep);
    assert gap0 == pos.Gap();
    pos.MakeMove(m);
    var k := Lsb(pos.Pieces(1 - pos.side, KING));
    var attacked := k != SQ_NONE && pos.IsAttacked(k, pos.side);
    assert attacked == KingLeftAttacked(MovedBoard(g.board, m, g.side), g.side);
    if attacked {
      assert A1: Clean(g.board);
      assert A2: pos.board[..] == MovedBoard(g.board, m, g.side) && pos.side == 1 - g.side;
      assert A3: |states0| > 0 && |pos.states| == |states0| + 1 && pos.states[..|states0|] == states0;
      assert A4: pos.Top().capturedPiece == CapturedBy(g.board, m, g.side);
      assert A5: states0[|states0| - 1].castleRights == g.rights && states0[|states0| - 1].epSquare == g.ep;
      TakeBack(pos, m, g, states0);
      kept := false;
    } else {
      kept := true;
    }
  }

  /** unmake_move right after make_move: everything the setting holds is as before. */
  method TakeBack(pos: Position, m: Move, ghost g: Setting, ghost states0: seq<StateInfo>)
    requires pos.Valid() && Reversible(g.board, m, g.side) && Clean(g.board)
    requires pos.board[..] == MovedBoard(g.board, m, g.side) && pos.side == 1 - g.side
    requires |states0| > 0 && |pos.states| == |states0| + 1 && pos.states[..|states0|] == states0
    requires pos.Top().capturedPiece == CapturedBy(g.board, m, g.side)
    requires states0[|states0| - 1].castleRights == g.rights && states0[|states0| - 1].epSquare == g.ep
    modifies pos, pos.board, pos.colorBB, pos.typeBB
    ensures pos.Valid() && SettingOf(pos) == g && pos.states == states0
    ensures pos.historyIndex == old(pos.historyIndex) - 1
    ensures pos.Gap() == KeyGap(pos.keys, states0[|states0| - 1].key, g.board, g.side, g.rights, g.ep)
  {
    UnmakeRestoresBoard(g.board, m, g.side);
    pos.UnmakeMove(m);
    assert pos.states == states0;
  }

  // ----- the moves loop -----

  /** Every token of the list can be played in turn. */
  ghost predicate Playable(g: Setting, tokens: seq<string>)
    decreases |tokens|
  {
    tokens == [] || (TokenSafe(g, tokens[0]) && Playable(AfterToken(g, tokens[0]), tokens[1..]))
  }

  /** The setting once every token has been tried in order. */
  ghost function Played(g: Setting, tokens: seq<string>): Setting
    requires Playable(g, tokens)
    decreases |tokens|
  {
    if tokens == [] then g else Played(AfterToken(g, tokens[0]), tokens[1..])
  }

  /** `while (ss >> move_str) { ... }` over the rest of the line. */
  method PlayMoves(pos: Position, st0: Stream, ghost g0: Setting)
    requires pos.Valid() && 0 <= pos.historyIndex && g0 == SettingOf(pos) && Playable(g0, Words(st0))
    modifies pos, pos.board, pos.colorBB, pos.typeBB, pos.hashHistory
    ensures pos.Valid() && SettingOf(pos) == Played(g0, Words(st0))
    ensures pos.Gap() == old(pos.Gap())
    ensures |pos.states| >= |old(pos.states)| && pos.states[..|old(pos.states)|] == old(pos.states)
  {
    var st := st0;
    ghost var states0 := pos.states;
    var reading := true;
    while reading
      invariant pos.Valid() && 0 <= pos.historyIndex && pos.Gap() == old(pos.Gap())
      invariant |pos.states| >= |states0| && pos.states[..|states0|] == states0
      invariant reading ==> Playable(SettingOf(pos), Words(st))
      invariant reading ==> Played(SettingOf(pos), Words(st)) == Played(g0, Words(st0))
      invariant !reading ==> SettingOf(pos) == Played(g0, Words(st0))
      decreases |st.rest|, reading
    {
      ReadWordWords(st);
      ghost var g, ws := SettingOf(pos), Words(st);
      var w := ReadWord(st);
      st := w.1;
      if w.0.None? {
        reading := false;
      } else {
        ghost var s1 := pos.states;
        var kept := ApplyMoveToken(pos, w.0.value, g);
        PushedPrefix(s1, pos.states, kept);
        assert ws[1..] == Words(st);
        assert SettingOf(pos) == AfterToken(g, ws[0]);
        PrefixOfPrefix(pos.states, s1, states0);
      }
    }
  }

  lemma {:induction false} PrefixOfPrefix<T>(a: seq<T>, b: seq<T>, c: seq<T>)
    requires |c| <= |b| <= |a| && a[..|b|] == b && b[..|c|] == c
    ensures a[..|c|] == c
  {
    assert forall i :: 0 <= i < |c| ==> a[i] == b[i] == c[i];
  }
}
