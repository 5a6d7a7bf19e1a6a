/**
 * The `position` command of UCI::loop (src/uci.cpp): `startpos` sets up the
 * standard starting position, `fen` joins the words up to `moves` into a
 * FEN string for set_fen, and after the word `moves` every remaining word is
 * tried as a move.
 */
module UciPosition {
  import opened Wrappers
  import opened Types
  import opened PyText
  import opened CppText
  import opened Board
  import opened Fen
  import opened Positions
  import opened Session
  import opened Uci
  import opened UciMoves

  // ----- the starting position -----

  /** The ranks of the starting placement, from the eighth down to the first. */
  const START_RANKS: seq<string> := ["rnbqkbnr", "pppppppp", "8", "8", "8", "8", "PPPPPPPP", "RNBQKBNR"]

  /** Ranks joined by '/', as a FEN placement field writes them. */
  function Slashed(rows: seq<string>): string
    decreases |rows|
  {
    if rows == [] then "" else if |rows| == 1 then rows[0] else rows[0] + "/" + Slashed(rows[1..])
  }

  /** "rnbqkbnr/pppppppp/8/8/8/8/PPPPPPPP/RNBQKBNR w KQkq - 0 1". */
  function StartFen(): string
  {
    Join(StartFenWords())
  }

  /** The six fields of the starting FEN. */
  function StartFenWords(): seq<string>
  {
    [Slashed(START_RANKS), "w", "KQkq", "-", "0", "1"]
  }

  /** A rank of the placement that fills files a-h: eight piece letters, or the digit 8. */
  predicate FullRank(row: string)
  {
    row == "8" || (|row| == 8 && forall i :: 0 <= i < 8 ==> FenPiece(row[i]).Some?)
  }

  /** Piece letters go one file on each. */
  lemma {:induction false} TrackLetters(s: string, rank: int, file: int)
    requires forall i :: 0 <= i < |s| ==> FenPiece(s[i]).Some?
    requires 0 <= rank < 8 && 0 <= file && file + |s| <= 8
    ensures Track(s, rank, file) == Some((rank, file + |s|))
    decreases |s|
  {
    if s != [] {
      assert s[0] != '/' && !IsDigit(s[0]);
      TrackLetters(s[1..], rank, file + 1);
    }
  }

  lemma {:induction false} TrackFullRank(row: string, rank: int)
    requires FullRank(row) && 0 <= rank < 8
    ensures Track(row, rank, 0) == Some((rank, 8))
  {
    if row == "8" {
      assert row[1..] == [];
    } else {
      TrackLetters(row, rank, 0);
    }
  }

  /** Full ranks separated by '/' walk from file a of the top rank to past file h of the bottom one. */
  lemma {:induction false} TrackRanks(rows: seq<string>, rank: int)
    requires rows != [] && forall i :: 0 <= i < |rows| ==> FullRank(rows[i])
    requires rank < 8 && rank - |rows| + 1 >= 0
    ensures Track(Slashed(rows), rank, 0) == Some((rank - |rows| + 1, 8))
    decreases |rows|
  {
    TrackFullRank(rows[0], rank);
    if |rows| > 1 {
      var rest := Slashed(rows[1..]);
      TrackAppend(rows[0], "/" + rest, rank, 0);
      assert ("/" + rest)[0] == '/' && ("/" + rest)[1..] == rest;
      TrackRanks(rows[1..], rank - 1);
      assert rows[0] + "/" + rest == rows[0] + ("/" + rest);
    }
  }

  /** The placement has no white space in it. */
  lemma {:induction false} SlashedToken(rows: seq<string>)
    requires rows != [] && forall i :: 0 <= i < |rows| ==> FullRank(rows[i])
    ensures IsToken(Slashed(rows))
    decreases |rows|
  {
    assert IsToken(rows[0]);
    if |rows| > 1 {
      SlashedToken(rows[1..]);
      var r, t := rows[0], Slashed(rows[1..]);
      assert forall i :: 0 <= i < |r + "/" + t| ==> (r + "/" + t)[i] == (if i < |r| then r[i] else if i == |r| then '/' else t[i - |r| - 1]);
    }
  }

  /** The first four words of a FEN string are the fields set_fen reads before the clock. */
  lemma {:induction false} FieldsOfWords(fen: string)
    requires |Words(StringStream(fen))| >= 4
    ensures var ws := Words(StringStream(fen)); var f := Fields(fen);
      f.placement == ws[0] && f.side == ws[1] && f.castling == ws[2] && f.ep == ws[3]
  {
    var ws := Words(StringStream(fen));
    var a := NthWord(StringStream(fen), ws);
    var b := NthWord(a, ws[1..]);
    var c := NthWord(b, ws[2..]);
    var d := NthWord(c, ws[3..]);
    FieldsRead(fen, a, b, c);
  }

  /** Fields reads its four words one after the other. */
  lemma {:induction false} FieldsRead(fen: string, a: Stream, b: Stream, c: Stream)
    requires a == ReadWord(StringStream(fen)).1 && b == ReadWord(a).1 && c == ReadWord(b).1
    ensures var f := Fields(fen);
      f.placement == WordOr(ReadWord(StringStream(fen)).0) && f.side == WordOr(ReadWord(a).0) &&
      f.castling == WordOr(ReadWord(b).0) && f.ep == WordOr(ReadWord(c).0)
  {
  }

  lemma {:induction false} NthWord(st: Stream, ws: seq<string>) returns (rest: Stream)
    requires Words(st) == ws && ws != []
    ensures rest == ReadWord(st).1
    ensures ReadWord(st).0 == Some(ws[0]) && Words(rest) == ws[1..]
  {
    rest := ReadWord(st).1;
    ReadWordWords(st);
  }

  /** set_fen can read the starting position: the placement fills the board and there is no en-passant square. */
  lemma {:induction false} StartFenReadable()
    ensures FenReadable(StartFen())
    ensures Fields(StartFen()).side == "w" && Fields(StartFen()).castling == "KQkq"
    ensures Fields(StartFen()).ep == "-"
  {
    StartWords();
    FieldsOfWords(StartFen());
    StartPlacementFits();
  }

  lemma {:induction false} StartPlacementFits()
    ensures Place(Slashed(START_RANKS), StartWalk()).Some?
  {
    assert forall i :: 0 <= i < |START_RANKS| ==> FullRank(START_RANKS[i]);
    TrackRanks(START_RANKS, 7);
    EmptyStart();
    PlaceFits(Slashed(START_RANKS), StartWalk());
  }

  /** The words of the starting FEN. */
  lemma {:induction false} StartWords()
    ensures Words(StringStream(StartFen())) == StartFenWords()
  {
    var rows := START_RANKS;
    assert forall i :: 0 <= i < |rows| ==> FullRank(rows[i]);
    SlashedToken(rows);
    var ws := StartFenWords();
    assert forall i :: 0 <= i < |ws| ==> IsToken(ws[i]);
    JoinReadsBack("", ws);
    assert "" + StartFen() == StartFen();
  }

  lemma {:induction false} EmptyStart()
    ensures EmptyAhead(StartWalk().board, 7, 0)
  {
    assert forall s: Sq :: StartWalk().board[s] == NO_PIECE;
  }

  /** The starting position: White to move, all four castling rights, no en-passant square. */
  lemma {:induction false} StartSetting()
    ensures FenReadable(StartFen())
    ensures FenSetting(StartFen()).side == WHITE && FenSetting(StartFen()).rights == 15
    ensures FenSetting(StartFen()).ep == SQ_NONE
  {
    StartFenReadable();
    StartRights();
  }

  lemma {:induction false} StartRights()
    ensures CastleFold("KQkq", 0) == 15
  {
    assert "KQkq"[1..] == "Qkq" && "Qkq"[1..] == "kq" && "kq"[1..] == "q" && "q"[1..] == [];
  }

  // ----- the position command -----

  /** What the first word after `position` selects. */
  datatype Setup = StartSetup | FenSetup(fen: string) | KeepSetup

  /** The setup, the last word held in `sub`, and the stream the moves loop reads. */
  datatype PositionArgs = PositionArgs(setup: Setup, sub: string, rest: Stream)

  /**
   * `ss >> sub`, then for `startpos` one more `ss >> sub`, and for `fen` the
   * loop joining words up to `moves`. `sub` starts empty and keeps its last
   * word when a read fails.
   */
  function PositionArgsOf(st: Stream): PositionArgs
  {
    var a := ReadWord(st);
    var sub := WordOr(a.0);
    if sub == "startpos" then
      var b := ReadWord(a.1);
      PositionArgs(StartSetup, if b.0.Some? then b.0.value else sub, b.1)
    else if sub == "fen" then
      var j := JoinLoop(a.1, "moves", "", sub);
      PositionArgs(FenSetup(j.0), j.1, j.2)
    else PositionArgs(KeepSetup, sub, a.1)
  }

  /** The words the moves loop tries: the rest of the line when `sub` is `moves`, nothing otherwise. */
  function MoveTokens(args: PositionArgs): seq<string>
  {
    if args.sub == "moves" then Words(args.rest) else []
  }

  /** The setting set_fen leaves for a FEN string it can read. */
  function FenSetting(fen: string): Setting
    requires FenReadable(fen)
  {
    var f := Fields(fen);
    Setting(Place(f.placement, StartWalk()).value.board, if f.side == "w" then WHITE else BLACK,
            CastleFold(f.castling, 0), EpOf(f.ep))
  }

  predicate SetupReadable(s: Setup)
  {
    s.FenSetup? ==> FenReadable(s.fen)
  }

  /** The setting before the moves: the starting position, the FEN's, or the current one. */
  function SetupSetting(s: Setup, g: Setting): Setting
    requires SetupReadable(s)
  {
    match s
    case StartSetup => (StartFenReadable(); FenSetting(StartFen()))
    case FenSetup(fen) => FenSetting(fen)
    case KeepSetup => g
  }

  /** The `position` branch of the command loop, on the stream after the token. */
  method RunPosition(pos: Position, st0: Stream, ghost g0: Setting)
    requires pos.Valid() && 0 <= pos.historyIndex && g0 == SettingOf(pos)
    requires SetupReadable(PositionArgsOf(st0).setup)
    requires Playable(SetupSetting(PositionArgsOf(st0).setup, g0), MoveTokens(PositionArgsOf(st0)))
    modifies pos, pos.board, pos.colorBB, pos.typeBB, pos.hashHistory
    ensures pos.Valid()
    ensures SettingOf(pos) == Played(SetupSetting(PositionArgsOf(st0).setup, g0), MoveTokens(PositionArgsOf(st0)))
    ensures PositionArgsOf(st0).setup != KeepSetup ==> pos.Gap() == 0
  {
    var sub, st := ReadSetup(pos, st0, g0);
    if sub == "moves" {
      PlayMoves(pos, st, SettingOf(pos));
    }
  }

  /** Everything of the `position` branch before the moves loop. */
  method ReadSetup(pos: Position, st0: Stream, ghost g0: Setting) returns (sub: string, st: Stream)
    requires pos.Valid() && 0 <= pos.historyIndex && g0 == SettingOf(pos)
    requires SetupReadable(PositionArgsOf(st0).setup)
    modifies pos, pos.board, pos.colorBB, pos.typeBB, pos.hashHistory
    ensures pos.Valid() && 0 <= pos.historyIndex
    ensures sub == PositionArgsOf(st0).sub && st == PositionArgsOf(st0).rest
    ensures SettingOf(pos) == SetupSetting(PositionArgsOf(st0).setup, g0)
    ensures PositionArgsOf(st0).setup != KeepSetup ==> pos.Gap() == 0
  {
    var a := ReadWord(st0);
    sub := WordOr(a.0);
    st := a.1;
    if sub == "startpos" {
      StartBranch(st0);
      StartFenReadable();
      SetUp(pos, StartFen());
      var b := ReadWord(st);
      if b.0.Some? {
        sub := b.0.value;
      }
      st := b.1;
    } else if sub == "fen" {
      FenBranch(st0);
      var fen;
      fen, sub, st := ReadJoined(st, "moves", sub);
      SetUp(pos, fen);
    }
  }

  /** `pos.set_fen(fen)`, seen through the setting it leaves. */
  method SetUp(pos: Position, fen: string)
    requires pos.Valid() && FenReadable(fen)
    modifies pos, pos.board, pos.colorBB, pos.typeBB, pos.hashHistory
    ensures pos.Valid() && pos.historyIndex == 1 && SettingOf(pos) == FenSetting(fen) && pos.Gap() == 0
  {
    pos.SetFen(fen);
  }

  // ----- the lines the driver sends -----

  /** `startpos` then, when there are moves, `moves` and the moves. */
  lemma {:induction false} StartposArgs(st: Stream, ms: seq<string>)
    requires Words(st) == if ms == [] then ["startpos"] else ["startpos", "moves"] + ms
    ensures PositionArgsOf(st).setup == StartSetup && MoveTokens(PositionArgsOf(st)) == ms
  {
    ReadWordWords(st);
    var a := ReadWord(st);
    ReadWordWords(a.1);
    if ms != [] {
      var b := ReadWord(a.1);
      assert Words(b.1) == ms;
    }
  }

  /** `fen`, the FEN's words, `moves` and the moves: the FEN is the words joined by single spaces. */
  lemma {:induction false} FenArgs(st: Stream, fws: seq<string>, ms: seq<string>)
    requires Words(st) == ["fen"] + (fws + ["moves"] + ms)
    requires forall i :: 0 <= i < |fws| ==> fws[i] != "moves"
    ensures PositionArgsOf(st).setup == FenSetup(Join(fws)) && MoveTokens(PositionArgsOf(st)) == ms
  {
    ReadWordWords(st);
    Front("fen", fws + ["moves"] + ms);
    var a := ReadWord(st);
    FenBranch(st);
    JoinLoopWords(a.1, "moves", "", "fen");
    JoinWordsUntil([], fws, "moves", ms, "fen");
    EmptyJoin(fws);
    var q := JoinWords(Words(a.1), "moves", "", "fen");
    assert Words(a.1) == fws + ["moves"] + ms;
    assert q == (Join(fws), "moves", ms);
  }

  /** The branches of PositionArgsOf, by the first word. */
  lemma {:induction false} FenBranch(st: Stream)
    requires ReadWord(st).0 == Some("fen")
    ensures var j := JoinLoop(ReadWord(st).1, "moves", "", "fen");
      PositionArgsOf(st) == PositionArgs(FenSetup(j.0), j.1, j.2)
  {
    assert "fen" != "startpos";
  }

  lemma {:induction false} StartBranch(st: Stream)
    requires ReadWord(st).0 == Some("startpos")
    ensures var b := ReadWord(ReadWord(st).1);
      PositionArgsOf(st) == PositionArgs(StartSetup, if b.0.Some? then b.0.value else "startpos", b.1)
  {
  }

  /** The head and the tail of a sequence built from its head. */
  lemma {:induction false} Front<T>(x: T, xs: seq<T>)
    ensures ([x] + xs)[0] == x && ([x] + xs)[1..] == xs
    ensures [] + xs == xs
  {
  }

  lemma PositionWords(j: string)
    ensures "position startpos moves " + j == "position" + " " + ("startpos" + " " + ("moves" + " " + j))
    ensures "position startpos" == "position" + " " + "startpos"
  {
  }

  /** The line the driver sends for the moves so far is a startpos line followed by exactly those moves. */
  lemma {:induction false} DriverPositionLine(prev: string, ms: seq<string>)
    requires forall i :: 0 <= i < |ms| ==> IsToken(ms[i])
    ensures var line := PositionCommand(Join(ms));
      LineToken(prev, line) == "position" &&
      PositionArgsOf(LineRest(line)).setup == StartSetup && MoveTokens(PositionArgsOf(LineRest(line))) == ms
  {
    var ws := DriverLineWords(ms);
    JoinedLine(prev, ws);
    StartposArgs(LineRest(Join(ws)), ms);
  }

  /** The driver's position line as words. */
  lemma {:induction false} DriverLineWords(ms: seq<string>) returns (ws: seq<string>)
    requires forall i :: 0 <= i < |ms| ==> IsToken(ms[i])
    ensures PositionCommand(Join(ms)) == Join(ws)
    ensures ws != [] && ws[0] == "position" && forall i :: 0 <= i < |ws| ==> IsToken(ws[i])
    ensures ws[1..] == if ms == [] then ["startpos"] else ["startpos", "moves"] + ms
  {
    if ms == [] {
      ws := BareStartLine();
    } else {
      ws := MovesLine(ms);
    }
  }

  lemma {:induction false} BareStartLine() returns (ws: seq<string>)
    ensures PositionCommand(Join([])) == Join(ws)
    ensures ws == ["position"] + ["startpos"] && forall i :: 0 <= i < |ws| ==> IsToken(ws[i])
  {
    ws := ["position"] + ["startpos"];
    PositionWords("");
    EmptyJoin([]);
    JoinFront("startpos", []);
    JoinFront("position", ["startpos"]);
    assert ["startpos"] == ["startpos"] + [];
  }

  lemma {:induction false} MovesLine(ms: seq<string>) returns (ws: seq<string>)
    requires ms != [] && forall i :: 0 <= i < |ms| ==> IsToken(ms[i])
    ensures PositionCommand(Join(ms)) == Join(ws)
    ensures ws == ["position"] + (["startpos"] + (["moves"] + ms)) && forall i :: 0 <= i < |ws| ==> IsToken(ws[i])
  {
    ws := ["position"] + (["startpos"] + (["moves"] + ms));
    PositionWords(Join(ms));
    JoinNotEmpty(ms);
    JoinFront("moves", ms);
    JoinFront("startpos", ["moves"] + ms);
    JoinFront("position", ["startpos"] + (["moves"] + ms));
  }

  /** A line that spells the starting FEN out sets up the same position as `startpos`. */
  lemma {:induction false} FenOfStartIsStartpos(st: Stream, ms: seq<string>, g: Setting)
    requires Words(st) == ["fen"] + (StartFenWords() + ["moves"] + ms)
    ensures SetupReadable(PositionArgsOf(st).setup)
    ensures SetupSetting(PositionArgsOf(st).setup, g) == SetupSetting(StartSetup, g)
    ensures MoveTokens(PositionArgsOf(st)) == ms
  {
    StartWordsNotMoves();
    FenArgs(st, StartFenWords(), ms);
    StartFenReadable();
  }

  lemma {:induction false} StartWordsNotMoves()
    ensures forall i :: 0 <= i < |StartFenWords()| ==> StartFenWords()[i] != "moves"
  {
    assert Slashed(START_RANKS)[0] == 'r';
  }
}
