/**
 * The per-line command handling of UCI::loop (src/uci.cpp). The first word
 * of a line picks the command; `setoption` reads an option name and value,
 * `position` sets up a position and plays the listed moves, and `go` reads
 * the search limits. Moves are written in coordinate notation, "e2e4" or
 * "e7e8q". Every line is read with a `std::stringstream`, modelled by
 * CppText.Stream.
 */
module Uci {
  import opened Wrappers
  import opened Types
  import opened Moves
  import opened PyText
  import opened CppText
  import opened Fen
  import opened Tune
  import opened TT
  import opened Session

  const LLONG_MIN: int := -0x8000_0000_0000_0000
  const LLONG_MAX: int := 0x7fff_ffff_ffff_ffff

  /** Every word `ss >> w` would still read from st, in order. */
  function Words(st: Stream): seq<string>
    decreases |st.rest|
  {
    var r := ReadWord(st);
    if r.0.None? then [] else [r.0.value] + Words(r.1)
  }

  /** A word as `>>` reads it: not empty and free of white space. */
  predicate IsToken(w: string)
  {
    w != [] && forall i :: 0 <= i < |w| ==> !CSpace(w[i])
  }

  /** `if (!s.empty()) s += " "; s += w;`, the step both word-joining loops take. */
  function Joined(s: string, w: string): string
  {
    if s == [] then w else s + " " + w
  }

  /** The words joined by single spaces, as those loops build them. */
  function Join(ws: seq<string>): string
  {
    if ws == [] then "" else Joined(Join(ws[..|ws| - 1]), ws[|ws| - 1])
  }

  // ----- reading words back -----

  lemma {:induction false} WordRunOf(w: string, tail: string)
    requires forall i :: 0 <= i < |w| ==> !CSpace(w[i])
    requires tail == [] || CSpace(tail[0])
    ensures WordRun(w + tail) == |w|
    decreases |w|
  {
    if w != [] {
      assert (w + tail)[1..] == w[1..] + tail;
      WordRunOf(w[1..], tail);
    } else {
      assert w + tail == tail;
    }
  }

  /** A word followed by white space or the end is read whole, and the stream stays good. */
  lemma {:induction false} ReadWordOf(w: string, tail: string)
    requires IsToken(w) && (tail == [] || CSpace(tail[0]))
    ensures ReadWord(Stream(w + tail, true)) == (Some(w), Stream(tail, true))
  {
    WordRunOf(w, tail);
    assert SkipSpace(w + tail) == w + tail;
    assert (w + tail)[..|w|] == w && (w + tail)[|w|..] == tail;
  }

  /** A separating space is skipped. */
  lemma {:induction false} ReadWordAfterSpace(w: string, tail: string)
    requires IsToken(w) && (tail == [] || CSpace(tail[0]))
    ensures ReadWord(Stream(" " + w + tail, true)) == (Some(w), Stream(tail, true))
  {
    assert (" " + w + tail)[1..] == w + tail;
    assert SkipSpace(" " + w + tail) == SkipSpace(w + tail);
    ReadWordOf(w, tail);
  }

  /** Joining w onto the front of the joined words. */
  lemma {:induction false} JoinFront(w: string, ws: seq<string>)
    requires IsToken(w) && forall i :: 0 <= i < |ws| ==> IsToken(ws[i])
    ensures Join([w] + ws) == if ws == [] then w else w + " " + Join(ws)
    decreases |ws|
  {
    if ws == [] {
      assert [w] + ws == [w];
      assert Join([w]) == Joined(Join([]), w);
    } else {
      var front, last := ws[..|ws| - 1], ws[|ws| - 1];
      var all := [w] + ws;
      assert all[..|all| - 1] == [w] + front && all[|all| - 1] == last;
      var left := Join([w] + front);
      assert Join(all) == Joined(left, last);
      JoinFront(w, front);
      assert left != [];
      if front == [] {
        assert ws == [last];
        assert Join(ws) == Joined(Join([]), last) == last;
        assert left == w;
      } else {
        JoinNotEmpty(front);
        var j := Join(front);
        assert left == w + " " + j;
        assert Join(ws) == j + " " + last;
        assert (w + " " + j) + " " + last == w + " " + (j + " " + last);
      }
    }
  }

  lemma {:induction false} JoinNotEmpty(ws: seq<string>)
    requires ws != [] && forall i :: 0 <= i < |ws| ==> IsToken(ws[i])
    ensures Join(ws) != []
  {
  }

  /** One word after leading white space is read, and then whatever follows it. */
  lemma {:induction false} WordsStep(lead: string, w: string, after: string)
    requires forall i :: 0 <= i < |lead| ==> CSpace(lead[i])
    requires IsToken(w) && (after == [] || CSpace(after[0]))
    ensures Words(Stream(lead + (w + after), true)) == [w] + Words(Stream(after, true))
  {
    SkipLead(lead, w + after);
    ReadWordOf(w, after);
  }

  /** The joined words read back as the words: `>>` undoes the joining loops. */
  lemma {:induction false} JoinReadsBack(lead: string, ws: seq<string>)
    requires forall i :: 0 <= i < |lead| ==> CSpace(lead[i])
    requires forall i :: 0 <= i < |ws| ==> IsToken(ws[i])
    ensures Words(Stream(lead + Join(ws), true)) == ws
    decreases |ws|
  {
    if ws == [] {
      SpacesOnly(lead);
      assert lead + Join(ws) == lead;
    } else {
      var rest := ws[1..];
      var after := JoinSplit(ws);
      if rest == [] {
        SpacesOnly([]);
      } else {
        JoinReadsBack(" ", rest);
      }
      JoinReadsStep(lead, ws[0], rest, after);
      assert [ws[0]] + rest == ws;
    }
  }

  /** The first word is read, then the rest reads back as the other words. */
  lemma {:induction false} JoinReadsStep(lead: string, w: string, rest: seq<string>, after: string)
    requires forall i :: 0 <= i < |lead| ==> CSpace(lead[i])
    requires IsToken(w) && (after == [] || after[0] == ' ')
    requires Words(Stream(after, true)) == rest
    ensures Words(Stream(lead + (w + after), true)) == [w] + rest
  {
    WordsStep(lead, w, after);
  }

  /** The joined words are the first word and then, when there are more, a space and the others joined. */
  lemma {:induction false} JoinSplit(ws: seq<string>) returns (after: string)
    requires ws != [] && forall i :: 0 <= i < |ws| ==> IsToken(ws[i])
    ensures Join(ws) == ws[0] + after
    ensures after == if |ws| == 1 then [] else " " + Join(ws[1..])
  {
    var rest := ws[1..];
    assert ws == [ws[0]] + rest;
    JoinFront(ws[0], rest);
    after := if rest == [] then [] else " " + Join(rest);
    if rest != [] {
      assert ws[0] + " " + Join(rest) == ws[0] + after;
    }
  }

  /** Only white space is left: nothing more is read. */
  lemma {:induction false} SpacesOnly(tail: string)
    requires forall i :: 0 <= i < |tail| ==> CSpace(tail[i])
    ensures SkipSpace(tail) == []
    ensures Words(Stream(tail, true)) == []
    decreases |tail|
  {
    if tail != [] {
      SpacesOnly(tail[1..]);
    }
  }

  /** `>>` reads the first of the words and leaves the others. */
  lemma {:induction false} ReadWordWords(st: Stream)
    ensures var r := ReadWord(st);
      (r.0.None? <==> Words(st) == []) &&
      (r.0.Some? ==> r.0.value == Words(st)[0] && Words(r.1) == Words(st)[1..]) &&
      (r.0.None? ==> Words(r.1) == [])
  {
    var r := ReadWord(st);
    if r.0.None? {
      assert !r.1.good;
      assert ReadWord(r.1).0.None?;
    }
  }

  // ----- the line loop -----

  /** The commands the loop acts on; any other first word is ignored. */
  datatype Command = UciCmd | SetOptionCmd | IsReadyCmd | NewGameCmd | PositionCmd | GoCmd | StopCmd | QuitCmd | NoCmd

  function CommandOf(token: string): (c: Command)
    ensures c == NoCmd <==>
      token !in ["uci", "setoption", "isready", "ucinewgame", "position", "go", "stop", "quit"]
  {
    if token == "uci" then UciCmd
    else if token == "setoption" then SetOptionCmd
    else if token == "isready" then IsReadyCmd
    else if token == "ucinewgame" then NewGameCmd
    else if token == "position" then PositionCmd
    else if token == "go" then GoCmd
    else if token == "stop" then StopCmd
    else if token == "quit" then QuitCmd
    else NoCmd
  }

  /**
   * `ss >> token` on a fresh stream of the line. `token` lives outside the
   * loop, so a line with no word leaves the previous line's token.
   */
  function LineToken(prev: string, line: string): string
  {
    var r := ReadWord(StringStream(line));
    if r.0.Some? then r.0.value else prev
  }

  /** The stream once the token is read: what the command's branch reads from. */
  function LineRest(line: string): Stream
  {
    ReadWord(StringStream(line)).1
  }

  /** A line made of words: its first word is the token, and the others remain. */
  lemma {:induction false} JoinedLine(prev: string, ws: seq<string>)
    requires ws != [] && forall i :: 0 <= i < |ws| ==> IsToken(ws[i])
    ensures LineToken(prev, Join(ws)) == ws[0]
    ensures Words(LineRest(Join(ws))) == ws[1..]
  {
    JoinReadsBack("", ws);
    assert "" + Join(ws) == Join(ws);
    ReadWordWords(StringStream(Join(ws)));
  }

  /** A blank line repeats the previous line's command. */
  lemma {:induction false} BlankLineRepeats(prev: string, line: string)
    requires forall i :: 0 <= i < |line| ==> CSpace(line[i])
    ensures LineToken(prev, line) == prev
  {
    SpacesOnly(line);
  }

  /** The two commands the driver sends are taken as `position` and `go`. */
  lemma {:induction false} DriverCommandsRecognized(prev: string, movesStr: string, depth: int)
    ensures CommandOf(LineToken(prev, PositionCommand(movesStr))) == PositionCmd
    ensures CommandOf(LineToken(prev, GoCommand(depth))) == GoCmd
  {
    PositionRecognized(prev, movesStr);
    GoRecognized(prev, depth);
  }

  lemma {:induction false} PositionRecognized(prev: string, movesStr: string)
    ensures LineToken(prev, PositionCommand(movesStr)) == "position"
  {
    var tail := PositionSplit(movesStr);
    FirstWordRead("position", tail);
  }

  lemma {:induction false} GoRecognized(prev: string, depth: int)
    ensures LineToken(prev, GoCommand(depth)) == "go"
  {
    GoWordRead(IntToString(depth));
  }

  /** The go command's first word, and what is left of the line. */
  lemma {:induction false} GoWordRead(n: string)
    ensures ReadWord(StringStream("go depth " + n)) == (Some("go"), Stream(" depth " + n, true))
  {
    GoSplit(n);
    FirstWordRead("go", " depth " + n);
  }

  /** A literal word followed by a blank is read whole. */
  lemma {:induction false} FirstWordRead(w: string, tail: string)
    requires w == "go" || w == "position"
    requires tail != [] && tail[0] == ' '
    ensures ReadWord(StringStream(w + tail)) == (Some(w), Stream(tail, true))
  {
    assert IsToken(w);
    ReadWordOf(w, tail);
  }

  lemma {:induction false} PositionSplit(movesStr: string) returns (tail: string)
    ensures PositionCommand(movesStr) == "position" + tail && tail[0] == ' '
  {
    if movesStr == [] {
      tail := " startpos";
      BarePositionSplit();
    } else {
      tail := " startpos moves " + movesStr;
      MovesPositionSplit(movesStr);
    }
  }

  lemma {:induction false} BarePositionSplit()
    ensures "position startpos" == "position" + " startpos"
  {
  }

  lemma {:induction false} MovesPositionSplit(movesStr: string)
    ensures "position startpos moves " + movesStr == "position" + (" startpos moves " + movesStr)
  {
    assert "position startpos moves " == "position" + " startpos moves ";
  }

  lemma {:induction false} GoSplit(n: string)
    ensures "go depth " + n == "go" + (" depth " + n)
  {
    assert "go depth " == "go" + " depth ";
  }

  /** The words of a line "c k w1 .. wn s v" after its first, and after its second. */
  lemma {:induction false} LineTail<T>(c: T, k: T, ws: seq<T>, s: T, v: T)
    ensures ([c, k] + ws + [s, v])[1..] == [k] + (ws + [s] + [v])
    ensures ([c, k] + ws + [s, v])[2..] == ws + [s] + [v]
  {
  }

  // ----- the two word-joining loops -----

  /**
   * `while (ss >> sub && sub != stop) { if (!acc.empty()) acc += " "; acc += sub; }`:
   * the joined words, the last word read (sub keeps its value when a read
   * fails) and the stream left.
   */
  function JoinLoop(st: Stream, stop: string, acc: string, sub: string): (r: (string, string, Stream))
    ensures |r.2.rest| <= |st.rest|
    decreases |st.rest|
  {
    var w := ReadWord(st);
    if w.0.None? then (acc, sub, w.1)
    else if w.0.value == stop then (acc, stop, w.1)
    else JoinLoop(w.1, stop, Joined(acc, w.0.value), w.0.value)
  }

  /** The loop itself, on the stream. */
  method ReadJoined(st0: Stream, stop: string, sub0: string) returns (acc: string, sub: string, st: Stream)
    ensures (acc, sub, st) == JoinLoop(st0, stop, "", sub0)
  {
    acc, sub, st := "", sub0, st0;
    var reading := true;
    while reading
      invariant reading ==> JoinLoop(st, stop, acc, sub) == JoinLoop(st0, stop, "", sub0)
      invariant !reading ==> (acc, sub, st) == JoinLoop(st0, stop, "", sub0)
      decreases |st.rest|, reading
    {
      ghost var st1, acc1, sub1 := st, acc, sub;
      var w := ReadWord(st);
      st := w.1;
      if w.0.None? {
        reading := false;
      } else {
        sub := w.0.value;
        if sub == stop {
          reading := false;
        } else {
          if acc != [] {
            acc := acc + " ";
          }
          acc := acc + sub;
          assert acc == Joined(acc1, sub);
          assert JoinLoop(st1, stop, acc1, sub1) == JoinLoop(st, stop, acc, sub);
        }
      }
    }
  }

  /** The same loop over the words: the joined words, the last word, the words left. */
  function JoinWords(ws: seq<string>, stop: string, acc: string, sub: string): (string, string, seq<string>)
  {
    if ws == [] then (acc, sub, [])
    else if ws[0] == stop then (acc, stop, ws[1..])
    else JoinWords(ws[1..], stop, Joined(acc, ws[0]), ws[0])
  }

  /** The stream loop reads what the word loop says. */
  lemma {:induction false} JoinLoopWords(st: Stream, stop: string, acc: string, sub: string)
    ensures var r := JoinLoop(st, stop, acc, sub);
      var q := JoinWords(Words(st), stop, acc, sub);
      r.0 == q.0 && r.1 == q.1 && Words(r.2) == q.2
    decreases |st.rest|
  {
    ReadWordWords(st);
    var w := ReadWord(st);
    if w.0.Some? && w.0.value != stop {
      JoinLoopWords(w.1, stop, Joined(acc, w.0.value), w.0.value);
    }
  }

  /** Words up to the stop word are joined by single spaces; the words after it are left. */
  lemma {:induction false} JoinWordsUntil(pre: seq<string>, ws: seq<string>, stop: string, more: seq<string>, sub: string)
    requires forall i :: 0 <= i < |ws| ==> ws[i] != stop
    ensures JoinWords(ws + [stop] + more, stop, Join(pre), sub) == (Join(pre + ws), stop, more)
    decreases |ws|
  {
    var all := ws + [stop] + more;
    if ws == [] {
      assert all[0] == stop && all[1..] == more;
      assert pre + ws == pre;
    } else {
      assert all[0] == ws[0] && all[1..] == ws[1..] + [stop] + more;
      var pre1 := pre + [ws[0]];
      JoinSnoc(pre, ws[0]);
      JoinWordsUntil(pre1, ws[1..], stop, more, ws[0]);
      assert pre1 + ws[1..] == pre + ws;
      JoinWordsHead(all, stop, Join(pre), sub);
    }
  }

  /** A word other than the stop word is appended to the accumulator and becomes the last word read. */
  lemma {:induction false} JoinWordsHead(ws: seq<string>, stop: string, acc: string, sub: string)
    requires ws != [] && ws[0] != stop
    ensures JoinWords(ws, stop, acc, sub) == JoinWords(ws[1..], stop, Joined(acc, ws[0]), ws[0])
  {
  }

  /** Joining one more word appends it after a space. */
  lemma {:induction false} JoinSnoc(ws: seq<string>, w: string)
    ensures Join(ws + [w]) == Joined(Join(ws), w)
  {
    var all := ws + [w];
    assert all[..|all| - 1] == ws;
  }

  // ----- setoption -----

  /** What setoption reads: the name, the word the name loop stopped at, and the value. */
  datatype OptionArgs = OptionArgs(name: string, sub: string, value: string)

  /** `ss >> sub` (the word "name"), the name loop up to "value", then `ss >> value`. */
  function OptionArgsOf(st: Stream): OptionArgs
  {
    var first := ReadWord(st);
    var loop := JoinLoop(first.1, "value", "", WordOr(first.0));
    OptionArgs(loop.0, loop.1, if loop.1 == "value" then WordOr(ReadWord(loop.2).0) else "")
  }

  /** The same reading over the words of the line. */
  function OptionArgsOfWords(ws: seq<string>): OptionArgs
  {
    var loop := JoinWords(if ws == [] then [] else ws[1..], "value", "", if ws == [] then "" else ws[0]);
    OptionArgs(loop.0, loop.1, if loop.1 == "value" && loop.2 != [] then loop.2[0] else "")
  }

  lemma {:induction false} OptionArgsByWords(st: Stream)
    ensures OptionArgsOf(st) == OptionArgsOfWords(Words(st))
  {
    ReadWordWords(st);
    var first := ReadWord(st);
    JoinLoopWords(first.1, "value", "", WordOr(first.0));
    ReadWordWords(JoinLoop(first.1, "value", "", WordOr(first.0)).2);
  }

  /** The setoption branch up to the Tune and Hash updates. */
  method ReadOptionArgs(st0: Stream) returns (args: OptionArgs)
    ensures args == OptionArgsOf(st0)
  {
    var first := ReadWord(st0);
    var sub := WordOr(first.0);
    var name, st;
    name, sub, st := ReadJoined(first.1, "value", sub);
    var value := "";
    if sub == "value" {
      var v := ReadWord(st);
      value := WordOr(v.0);
    }
    args := OptionArgs(name, sub, value);
  }

  /** "setoption name N1 .. Nk value V": the name is N1 .. Nk joined by single spaces, and the value V. */
  lemma {:induction false} SetOptionLine(prev: string, ws: seq<string>, v: string)
    requires forall i :: 0 <= i < |ws| ==> IsToken(ws[i]) && ws[i] != "value"
    requires IsToken(v)
    ensures var line := Join(["setoption", "name"] + ws + ["value", v]);
      LineToken(prev, line) == "setoption" && OptionArgsOf(LineRest(line)) == OptionArgs(Join(ws), "value", v)
  {
    var all := ["setoption", "name"] + ws + ["value", v];
    OptionLineTokens(ws, v);
    JoinedLine(prev, all);
    LineTail("setoption", "name", ws, "value", v);
    OptionArgsByWords(LineRest(Join(all)));
    OptionWordsArgs(ws, v);
  }

  lemma {:induction false} OptionLineTokens(ws: seq<string>, v: string)
    requires forall i :: 0 <= i < |ws| ==> IsToken(ws[i])
    requires IsToken(v)
    ensures var all := ["setoption", "name"] + ws + ["value", v];
      all != [] && all[0] == "setoption" && forall i :: 0 <= i < |all| ==> IsToken(all[i])
  {
  }

  /** The words after the token: the name loop stops at "value", and the next word is the value. */
  lemma {:induction false} OptionWordsArgs(ws: seq<string>, v: string)
    requires forall i :: 0 <= i < |ws| ==> ws[i] != "value"
    ensures OptionArgsOfWords(["name"] + (ws + ["value"] + [v])) == OptionArgs(Join(ws), "value", v)
  {
    var rest := ws + ["value"] + [v];
    assert (["name"] + rest)[0] == "name" && (["name"] + rest)[1..] == rest;
    JoinWordsUntil([], ws, "value", [v], "name");
    EmptyJoin(ws);
  }

  lemma {:induction false} EmptyJoin(ws: seq<string>)
    ensures Join([]) == "" && [] + ws == ws
  {
  }

  /** A decimal rendering is one word. */
  lemma {:induction false} RenderedIsToken(v: int)
    ensures IsToken(IntToString(v))
  {
    var d: nat := if v < 0 then -v else v;
    assert forall i :: 0 <= i < |NatToString(d)| ==> IsDigit(NatToString(d)[i]);
  }

  /** `s.find(t) != npos`. */
  predicate Contains(s: string, t: string)
    decreases |s|
  {
    StartsWith(s, t) || (s != [] && Contains(s[1..], t))
  }

  /** The names Tune::set is tried on: a parameter with a non-zero value, or one naming "Val" or "LMR". */
  predicate TuneTarget(params: map<string, Parameter>, name: string)
  {
    Get(params, name) != 0 || Contains(name, "Val") || Contains(name, "LMR")
  }

  /** The parameters after setoption: set when the value came and stoi accepts it, else as before. */
  function TunedBy(params: map<string, Parameter>, args: OptionArgs): map<string, Parameter>
  {
    if args.sub == "value" && TuneTarget(params, args.name) && Stoi(args.value).Success?
    then Set(params, args.name, Stoi(args.value).value)
    else params
  }

  /** Whether setoption resizes the table: a Hash value stoi accepts. */
  predicate ResizesTable(args: OptionArgs)
  {
    args.sub == "value" && args.name == "Hash" && Stoi(args.value).Success?
  }

  /**
   * The rest of the setoption branch. stoi's exceptions are caught, so a
   * value it refuses changes nothing; whether the allocator returns a
   * block for the resized table is a parameter.
   */
  method SetOption(args: OptionArgs, registry: Registry, tt: TranspositionTable, gotBlock: bool)
    modifies registry, tt
    ensures registry.params == TunedBy(old(registry.params), args)
    ensures ResizesTable(args) ==>
      var mb := Stoi(args.value).value;
      tt.Valid() && fresh(tt.table) && tt.generation == 0 &&
      tt.hasTable == (gotBlock && EntryCount(mb) > 0) && tt.table.Length == EntryCount(mb) &&
      (tt.hasTable ==> forall i :: 0 <= i < tt.table.Length ==> tt.table[i] == ZeroEntry)
    ensures !ResizesTable(args) ==> tt.table == old(tt.table) && tt.hasTable == old(tt.hasTable)
    ensures !ResizesTable(args) ==> tt.generation == old(tt.generation)
  {
    if args.sub == "value" {
      var current := registry.GetParam(args.name);
      if current != 0 || Contains(args.name, "Val") || Contains(args.name, "LMR") {
        var v := Stoi(args.value);
        if v.Success? {
          registry.SetParam(args.name, v.value);
        }
      }
      if args.name == "Hash" {
        var mb := Stoi(args.value);
        if mb.Success? {
          tt.Resize(mb.value, gotBlock);
        }
      }
    }
  }

  /** A name with no parameter behind it leaves the parameters as they are. */
  lemma {:induction false} UnknownOptionIgnored(params: map<string, Parameter>, args: OptionArgs)
    requires args.name !in params
    ensures TunedBy(params, args) == params
  {
    if args.sub == "value" && TuneTarget(params, args.name) && Stoi(args.value).Success? {
      SetUnknown(params, args.name, Stoi(args.value).value);
    }
  }

  /** Only the named parameter can change, and only its value. */
  lemma {:induction false} OtherParamsUnchanged(params: map<string, Parameter>, args: OptionArgs, other: string)
    requires other != args.name
    ensures Get(TunedBy(params, args), other) == Get(params, other)
    ensures TunedBy(params, args).Keys == params.Keys
    ensures args.name in params ==>
      TunedBy(params, args)[args.name] == params[args.name].(value := TunedBy(params, args)[args.name].value)
  {
  }

  /**
   * "setoption name N value V" for a tuned parameter N and V the decimal
   * form of v: afterwards Tune::get(N) is v.
   */
  lemma {:induction false} KnownOptionSet(params: map<string, Parameter>, prev: string, name: string, v: int)
    requires IsToken(name) && name != "value" && name in params && TuneTarget(params, name)
    requires INT_MIN <= v <= INT_MAX
    ensures var line := Join(["setoption", "name"] + [name] + ["value", IntToString(v)]);
      var args := OptionArgsOf(LineRest(line));
      LineToken(prev, line) == "setoption" && args.name == name && Get(TunedBy(params, args), name) == v
  {
    var s := IntToString(v);
    StoiRoundTrip(v);
    RenderedIsToken(v);
    SetOptionLine(prev, [name], s);
    assert Join([name]) == name by {
      assert [name][..0] == [];
    }
    SetThenGet(params, name, v, name + "x");
  }

  // ----- go -----

  /** Search::Limits as the go branch fills it. */
  datatype Limits = Limits(depth: int, time: int, inc: int, movesToGo: int, useTime: bool, isMovetime: bool)

  /** The limits before any word is read: depth 100 and no clock. */
  const DEFAULT_LIMITS := Limits(100, 0, 0, 0, false, false)

  /** The variable after `ss >> x`: unchanged when nothing was written. */
  function IntOr(r: Option<int>, x: int): int
  {
    if r.Some? then r.value else x
  }

  /** One pass of the go loop's `if` chain for the word sub, reading any number from st. */
  function GoStep(sub: string, st: Stream, side: Color, l: Limits): (r: (Limits, Stream))
    ensures |r.1.rest| <= |st.rest|
    ensures l.isMovetime ==> r.0.isMovetime
  {
    if sub == "depth" then
      var n := ReadInt(st, INT_MIN, INT_MAX); (l.(depth := IntOr(n.0, l.depth)), n.1)
    else if sub == "wtime" && side == WHITE then
      var n := ReadInt(st, LLONG_MIN, LLONG_MAX); (l.(time := IntOr(n.0, l.time), useTime := true), n.1)
    else if sub == "btime" && side == BLACK then
      var n := ReadInt(st, LLONG_MIN, LLONG_MAX); (l.(time := IntOr(n.0, l.time), useTime := true), n.1)
    else if sub == "winc" && side == WHITE then
      var n := ReadInt(st, LLONG_MIN, LLONG_MAX); (l.(inc := IntOr(n.0, l.inc)), n.1)
    else if sub == "binc" && side == BLACK then
      var n := ReadInt(st, LLONG_MIN, LLONG_MAX); (l.(inc := IntOr(n.0, l.inc)), n.1)
    else if sub == "movestogo" then
      var n := ReadInt(st, LLONG_MIN, LLONG_MAX); (l.(movesToGo := IntOr(n.0, l.movesToGo)), n.1)
    else if sub == "movetime" then
      var n := ReadInt(st, LLONG_MIN, LLONG_MAX);
      (l.(time := IntOr(n.0, l.time), useTime := true, isMovetime := true), n.1)
    else if sub == "infinite" then (l.(depth := 100, useTime := false), st)
    else (l, st)
  }

  /** `while (ss >> sub) { ... }` over the rest of the line. */
  function GoLoop(st: Stream, side: Color, l: Limits): Limits
    decreases |st.rest|
  {
    var w := ReadWord(st);
    if w.0.None? then l
    else
      var r := GoStep(w.0.value, w.1, side, l);
      GoLoop(r.1, side, r.0)
  }

  /** The go branch: the limits handed to Search::iterate. */
  method ReadGo(st0: Stream, side: Color) returns (limits: Limits)
    ensures limits == GoLoop(st0, side, DEFAULT_LIMITS)
  {
    limits := Limits(0, 0, 0, 0, false, false);
    limits := limits.(depth := 100);
    limits := limits.(time := 0, inc := 0, movesToGo := 0);
    limits := limits.(useTime := false, isMovetime := false);
    var st := st0;
    var reading := true;
    while reading
      invariant reading ==> GoLoop(st, side, limits) == GoLoop(st0, side, DEFAULT_LIMITS)
      invariant !reading ==> limits == GoLoop(st0, side, DEFAULT_LIMITS)
      decreases |st.rest|, reading
    {
      ghost var st1, l1 := st, limits;
      var w := ReadWord(st);
      st := w.1;
      if w.0.None? {
        reading := false;
      } else {
        var sub := w.0.value;
        if sub == "depth" {
          var n := ReadInt(st, INT_MIN, INT_MAX);
          limits := limits.(depth := IntOr(n.0, limits.depth));
          st := n.1;
        } else if sub == "wtime" && side == WHITE {
          var n := ReadInt(st, LLONG_MIN, LLONG_MAX);
          limits := limits.(time := IntOr(n.0, limits.time), useTime := true);
          st := n.1;
        } else if sub == "btime" && side == BLACK {
          var n := ReadInt(st, LLONG_MIN, LLONG_MAX);
          limits := limits.(time := IntOr(n.0, limits.time), useTime := true);
          st := n.1;
        } else if sub == "winc" && side == WHITE {
          var n := ReadInt(st, LLONG_MIN, LLONG_MAX);
          limits := limits.(inc := IntOr(n.0, limits.inc));
          st := n.1;
        } else if sub == "binc" && side == BLACK {
          var n := ReadInt(st, LLONG_MIN, LLONG_MAX);
          limits := limits.(inc := IntOr(n.0, limits.inc));
          st := n.1;
        } else if sub == "movestogo" {
          var n := ReadInt(st, LLONG_MIN, LLONG_MAX);
          limits := limits.(movesToGo := IntOr(n.0, limits.movesToGo));
          st := n.1;
        } else if sub == "movetime" {
          var n := ReadInt(st, LLONG_MIN, LLONG_MAX);
          limits := limits.(time := IntOr(n.0, limits.time), useTime := true, isMovetime := true);
          st := n.1;
        } else if sub == "infinite" {
          limits := limits.(depth := 100, useTime := false);
        }
        assert (limits, st) == GoStep(sub, w.1, side, l1);
        assert GoLoop(st1, side, l1) == GoLoop(st, side, limits);
      }
    }
  }

  lemma {:induction false} DepthSplit(n: string)
    ensures " depth " + n == " " + "depth" + (" " + n)
  {
    assert " depth " == " " + "depth" + " ";
  }

  /** The driver's "go depth d" is read as a search to depth d with no clock. */
  lemma {:induction false} GoDepthLine(prev: string, depth: int, side: Color)
    requires INT_MIN <= depth <= INT_MAX
    ensures LineToken(prev, GoCommand(depth)) == "go"
    ensures GoLoop(LineRest(GoCommand(depth)), side, DEFAULT_LIMITS) == DEFAULT_LIMITS.(depth := depth)
  {
    var n := IntToString(depth);
    GoWordRead(n);
    var st := Stream(" depth " + n, true);
    DepthWordRead(depth);
    DepthStep(depth, side);
    EmptyGo(side, DEFAULT_LIMITS.(depth := depth));
    assert GoLoop(st, side, DEFAULT_LIMITS) == GoLoop(Stream([], true), side, DEFAULT_LIMITS.(depth := depth));
  }

  /** After "go", the word "depth" is read, leaving the number. */
  lemma {:induction false} DepthWordRead(depth: int)
    ensures ReadWord(Stream(" depth " + IntToString(depth), true)) == (Some("depth"), Stream(" " + IntToString(depth), true))
  {
    var n := IntToString(depth);
    RenderedIsToken(depth);
    DepthSplit(n);
    ReadWordAfterSpace("depth", " " + n);
  }

  /** The depth branch reads the rendered number and consumes the line. */
  lemma {:induction false} DepthStep(depth: int, side: Color)
    requires INT_MIN <= depth <= INT_MAX
    ensures GoStep("depth", Stream(" " + IntToString(depth), true), side, DEFAULT_LIMITS) ==
            (DEFAULT_LIMITS.(depth := depth), Stream([], true))
  {
    var n := IntToString(depth);
    var st := Stream(" " + n, true);
    assert " " + (n + []) == " " + n;
    ReadIntRendered(" ", depth, INT_MIN, INT_MAX, []);
    assert ReadInt(st, INT_MIN, INT_MAX) == (Some(depth), Stream([], true));
    DepthBranch(st, side, DEFAULT_LIMITS);
  }

  /** The depth word reads a number in the range of int and keeps the old depth when that fails. */
  lemma {:induction false} DepthBranch(st: Stream, side: Color, l: Limits)
    ensures var n := ReadInt(st, INT_MIN, INT_MAX);
      GoStep("depth", st, side, l) == (l.(depth := IntOr(n.0, l.depth)), n.1)
  {
  }

  lemma {:induction false} EmptyGo(side: Color, l: Limits)
    ensures GoLoop(Stream([], true), side, l) == l
  {
    SpacesOnly([]);
  }

  /** A go line with nothing after the command searches with the default limits. */
  lemma {:induction false} BareGo(st: Stream, side: Color, l: Limits)
    requires Words(st) == []
    ensures GoLoop(st, side, l) == l
  {
    ReadWordWords(st);
  }

  /** Nothing in the go loop clears is_movetime once a movetime word set it. */
  lemma {:induction false} MovetimeSticks(st: Stream, side: Color, l: Limits)
    requires l.isMovetime
    ensures GoLoop(st, side, l).isMovetime
    decreases |st.rest|
  {
    var w := ReadWord(st);
    if w.0.Some? {
      var r := GoStep(w.0.value, w.1, side, l);
      MovetimeSticks(r.1, side, r.0);
    }
  }
}
