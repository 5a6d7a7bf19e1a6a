/**
 * The driver's side of one engine turn (play.py, Engine.get_bestmove): the
 * `position` and `go` commands it sends, and the rule that picks the engine's
 * move out of the lines the engine prints. The engine's output is given as
 * the sequence of values `readline()` returns, each with its line ending;
 * an empty string is end of file, as is the end of the sequence.
 */
module Session {
  import opened Wrappers
  import opened PyText

  /** The command sent for the moves played so far (a space-separated string). */
  function PositionCommand(movesStr: string): (cmd: string)
    ensures StartsWith(cmd, "position startpos")
    ensures movesStr == [] <==> cmd == "position startpos"
    ensures movesStr != [] ==>
      StartsWith(cmd, "position startpos moves ") && cmd[|"position startpos moves "|..] == movesStr
  {
    if movesStr != [] then "position startpos moves " + movesStr else "position startpos"
  }

  /** The search command: the depth rendered in decimal. */
  function GoCommand(depth: int): (cmd: string)
    ensures StartsWith(cmd, "go depth ")
  {
    "go depth " + IntToString(depth)
  }

  /** A non-negative depth can be read back from the go command. */
  lemma {:induction false} GoCommandDepth(depth: nat)
    ensures var digits := GoCommand(depth)[|"go depth "|..];
      (forall i :: 0 <= i < |digits| ==> IsDigit(digits[i])) && DigitsValue(digits) == depth
  {
    assert GoCommand(depth)[|"go depth "|..] == NatToString(depth);
    NatToStringValue(depth);
  }

  /** `parts[1]` of a bestmove line, or "(none)" when the line has one token. */
  function BestmoveToken(line: string): string
  {
    var parts := Split(line);
    if |parts| >= 2 then parts[1] else "(none)"
  }

  /** The fastchess check on a stripped line: it looks like the move `e2e4`. */
  predicate LooksLikeMove(line: string)
  {
    |line| >= 4 && IsAlpha(line[0]) &&
    var parts := Split(line);
    |parts| >= 1 && |parts[0]| >= 4 && IsAlpha(parts[0][0]) && IsDigit(parts[0][1])
  }

  /** What one line decides: a move, or None to keep reading. */
  function ClassifyLine(raw: string, fastchess: bool): (r: Option<string>)
    ensures StartsWith(Strip(raw), "bestmove") ==> r == Some(BestmoveToken(Strip(raw)))
    ensures !StartsWith(Strip(raw), "bestmove") && !fastchess ==> r == None
  {
    var line := Strip(raw);
    if StartsWith(line, "bestmove") then Some(BestmoveToken(line))
    else if fastchess && LooksLikeMove(line) then Some(Split(line)[0])
    else None
  }

  /** What reading one readline() result does to get_bestmove's loop. */
  datatype LineStep = EndOfFile | Skip | Decide(move: string)

  function Step(raw: string, fastchess: bool): (st: LineStep)
    ensures st == EndOfFile <==> raw == []
    ensures st.Decide? ==> Some(st.move) == ClassifyLine(raw, fastchess)
    ensures st == Skip <==> raw != [] && ClassifyLine(raw, fastchess) == None
  {
    if raw == [] then EndOfFile
    else
      match ClassifyLine(raw, fastchess)
      case Some(m) => Decide(m)
      case None => Skip
  }

  /** The steps for a whole sequence of readline() results. */
  function Steps(lines: seq<string>, fastchess: bool): (steps: seq<LineStep>)
    ensures |steps| == |lines|
  {
    seq(|lines|, j requires 0 <= j < |lines| => Step(lines[j], fastchess))
  }

  /** The move chosen once steps[..i] have been read past; running out of steps is end of file. */
  function FirstDecision(steps: seq<LineStep>, i: nat): Option<string>
    requires i <= |steps|
    decreases |steps| - i
  {
    if i == |steps| then None
    else
      match steps[i]
      case EndOfFile => None
      case Decide(m) => Some(m)
      case Skip => FirstDecision(steps, i + 1)
  }

  /** The reply get_bestmove returns for a given sequence of readline() results. */
  function Reply(lines: seq<string>, fastchess: bool): Option<string>
  {
    FirstDecision(Steps(lines, fastchess), 0)
  }

  /** The body of get_bestmove's loop for one non-empty readline() result. */
  method ClassifyRead(raw: string, fastchess: bool) returns (decided: Option<string>)
    ensures decided == ClassifyLine(raw, fastchess)
  {
    var line := Strip(raw);
    if StartsWith(line, "bestmove") {
      var parts := Split(line);
      if |parts| >= 2 {
        decided := Some(parts[1]);
      } else {
        decided := Some("(none)");
      }
      return;
    }
    if fastchess && |line| >= 4 && IsAlpha(line[0]) {
      var token := Split(line)[0];
      if |token| >= 4 && IsAlpha(token[0]) && IsDigit(token[1]) {
        assert LooksLikeMove(line);
        return Some(token);
      }
    }
    assert !fastchess || !LooksLikeMove(line);
    decided := None;
  }

  /** The line-reading loop of get_bestmove. */
  method GetBestMove(lines: seq<string>, fastchess: bool) returns (bestMove: Option<string>)
    ensures bestMove == Reply(lines, fastchess)
  {
    ghost var steps := Steps(lines, fastchess);
    bestMove := None;
    var i := 0;
    while true
      invariant 0 <= i <= |lines|
      invariant FirstDecision(steps, i) == Reply(lines, fastchess)
      decreases |lines| - i
    {
      if i == |lines| {
        break;
      }
      var line := lines[i];
      assert steps[i] == Step(line, fastchess);
      i := i + 1;
      if line == [] {
        break;
      }
      var decided := ClassifyRead(line, fastchess);
      if decided.Some? {
        bestMove := decided;
        break;
      }
    }
  }

  /** Reading past skipped steps does not change the decision. */
  lemma {:induction false} FirstDecisionSkips(steps: seq<LineStep>, i: nat, k: nat)
    requires i <= k <= |steps|
    requires forall j :: i <= j < k ==> steps[j] == Skip
    ensures FirstDecision(steps, i) == FirstDecision(steps, k)
    decreases k - i
  {
    if i < k {
      FirstDecisionSkips(steps, i + 1, k);
    }
  }

  /** A decision is made by the first step that is not skipped. */
  lemma {:induction false} FirstDecisionFrom(steps: seq<LineStep>, i: nat) returns (k: nat)
    requires i <= |steps| && FirstDecision(steps, i).Some?
    ensures i <= k < |steps| && steps[k].Decide?
    ensures forall j :: i <= j < k ==> steps[j] == Skip
    ensures FirstDecision(steps, i) == Some(steps[k].move)
    decreases |steps| - i
  {
    if steps[i].Decide? {
      k := i;
    } else {
      k := FirstDecisionFrom(steps, i + 1);
    }
  }

  /** No line in lines[..k] is end of file, starts with bestmove, or (in fastchess mode) looks like a move. */
  predicate SkipsBefore(lines: seq<string>, k: nat, fastchess: bool)
    requires k <= |lines|
  {
    forall j :: 0 <= j < k ==> lines[j] != [] && ClassifyLine(lines[j], fastchess) == None
  }

  /** Reading past lines that decide nothing does not change the reply. */
  lemma {:induction false} ReplySkips(lines: seq<string>, k: nat, fastchess: bool)
    requires k <= |lines| && SkipsBefore(lines, k, fastchess)
    ensures Reply(lines, fastchess) == FirstDecision(Steps(lines, fastchess), k)
  {
    var steps := Steps(lines, fastchess);
    forall j | 0 <= j < k ensures steps[j] == Skip {
      assert lines[j] != [] && ClassifyLine(lines[j], fastchess) == None;
    }
    FirstDecisionSkips(steps, 0, k);
  }

  /**
   * The first line starting with `bestmove` decides: its second token, or
   * "(none)" when it has no second token.
   */
  lemma {:induction false} FirstBestmoveWins(lines: seq<string>, k: nat, fastchess: bool)
    requires k < |lines| && SkipsBefore(lines, k, fastchess)
    requires StartsWith(Strip(lines[k]), "bestmove")
    ensures Reply(lines, fastchess) == Some(BestmoveToken(Strip(lines[k])))
  {
    ReplySkips(lines, k, fastchess);
    assert lines[k] != [];
  }

  /** In fastchess mode a line that looks like a move is returned as its first token. */
  lemma {:induction false} FastchessTakesMoveLine(lines: seq<string>, k: nat)
    requires k < |lines| && SkipsBefore(lines, k, true)
    requires !StartsWith(Strip(lines[k]), "bestmove") && LooksLikeMove(Strip(lines[k]))
    ensures Reply(lines, true) == Some(Split(Strip(lines[k]))[0])
    ensures Split(Strip(lines[k]))[0] == Strip(lines[k])[..WordLength(Strip(lines[k]))]
  {
    ReplySkips(lines, k, true);
    assert lines[k] != [];
    SplitFirstWord(Strip(lines[k]));
  }

  /** Running out of lines, or reaching end of file, with nothing decided yields None. */
  lemma {:induction false} EndOfFileYieldsNone(lines: seq<string>, k: nat, fastchess: bool)
    requires k <= |lines| && SkipsBefore(lines, k, fastchess)
    requires k == |lines| || lines[k] == []
    ensures Reply(lines, fastchess) == None
  {
    ReplySkips(lines, k, fastchess);
  }

  /** A decided reply comes from the first line that decides, after lines that were read past. */
  lemma {:induction false} ReplyFromLine(lines: seq<string>, fastchess: bool) returns (k: nat)
    requires Reply(lines, fastchess).Some?
    ensures k < |lines| && SkipsBefore(lines, k, fastchess) && lines[k] != []
    ensures Reply(lines, fastchess) == ClassifyLine(lines[k], fastchess)
  {
    var steps := Steps(lines, fastchess);
    k := FirstDecisionFrom(steps, 0);
    forall j | 0 <= j < k ensures lines[j] != [] && ClassifyLine(lines[j], fastchess) == None {
      assert steps[j] == Skip;
    }
  }

  /** Outside fastchess mode only a bestmove line can produce a move. */
  lemma {:induction false} ReplyComesFromBestmove(lines: seq<string>) returns (k: nat)
    requires Reply(lines, false).Some?
    ensures k < |lines| && SkipsBefore(lines, k, false) && StartsWith(Strip(lines[k]), "bestmove")
    ensures Reply(lines, false) == Some(BestmoveToken(Strip(lines[k])))
  {
    k := ReplyFromLine(lines, false);
  }
}
