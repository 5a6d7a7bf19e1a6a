/**
 * UCI options (src/ucioption.cpp): the four kinds of option, assignment of
 * a value given as text, the default and current values rendered as text,
 * and the table of options the engine registers.
 */
module UciOption {
  import opened Wrappers
  import opened PyText
  import opened CppText

  /** The variant holding a default or current value. */
  datatype OptValue = Text(s: string) | Flag(b: bool) | Number(i: int) | Nothing

  /** An option: default and current value, spin bounds (0 for the other kinds) and type tag. */
  datatype UciOption = UciOption(defaultValue: OptValue, currentValue: OptValue, min: int, max: int, kind: string)

  /** The constructor for a string option. */
  function StringOption(v: string): (o: UciOption)
    ensures o.kind == "string" && o.currentValue == o.defaultValue == Text(v)
  {
    UciOption(Text(v), Text(v), 0, 0, "string")
  }

  /** The constructor for a check (boolean) option. */
  function CheckOption(v: bool): (o: UciOption)
    ensures o.kind == "check" && o.currentValue == o.defaultValue == Flag(v)
  {
    UciOption(Flag(v), Flag(v), 0, 0, "check")
  }

  /** The constructor for a button, which has no value. */
  function ButtonOption(): (o: UciOption)
    ensures o.kind == "button" && o.currentValue == o.defaultValue == Nothing
  {
    UciOption(Nothing, Nothing, 0, 0, "button")
  }

  /** The constructor for a spin (integer) option. */
  function SpinOption(v: int, min: int, max: int): (o: UciOption)
    ensures o.kind == "spin" && o.currentValue == o.defaultValue == Number(v)
    ensures o.min == min && o.max == max
  {
    UciOption(Number(v), Number(v), min, max, "spin")
  }

  /** `std::clamp(v, lo, hi)`. */
  function Clamp(v: int, lo: int, hi: int): (r: int)
    requires lo <= hi
    ensures lo <= r <= hi
    ensures lo <= v <= hi ==> r == v
    ensures v < lo ==> r == lo
    ensures v > hi ==> r == hi
  {
    if v < lo then lo else if hi < v then hi else v
  }

  /** An option whose kind is spin has bounds std::clamp accepts. */
  predicate WellFormed(o: UciOption)
  {
    o.kind == "spin" ==> o.min <= o.max
  }

  /**
   * `o = v`. A button is left as it was; a check becomes whether v is
   * "true"; a spin becomes the clamped stoi(v), and an unreadable v escapes
   * as stoi's exception with the option untouched; anything else stores v.
   */
  function Assign(o: UciOption, v: string): (r: Result<UciOption, StoiError>)
    requires WellFormed(o)
    ensures r.Success? ==> WellFormed(r.value)
    ensures r.Success? ==> r.value.(currentValue := o.currentValue) == o
    ensures r.Failure? <==> o.kind == "spin" && Stoi(v).Failure?
  {
    if o.kind == "button" then Success(o)
    else if o.kind == "check" then Success(o.(currentValue := Flag(v == "true")))
    else if o.kind == "spin" then
      match Stoi(v)
      case Success(n) => Success(o.(currentValue := Number(Clamp(n, o.min, o.max))))
      case Failure(e) => Failure(e)
    else Success(o.(currentValue := Text(v)))
  }

  /** Assignment by kind, as the source promises it. */
  lemma {:induction false} AssignByKind(o: UciOption, v: string)
    requires WellFormed(o)
    ensures o.kind == "button" ==> Assign(o, v) == Success(o)
    ensures o.kind == "check" ==>
      (Assign(o, v).Success? && (Assign(o, v).value.currentValue == Flag(true) <==> v == "true"))
    ensures o.kind == "spin" && Stoi(v).Success? ==>
      (Assign(o, v).Success? && Assign(o, v).value.currentValue.Number? &&
       o.min <= Assign(o, v).value.currentValue.i <= o.max)
    ensures o.kind == "string" ==> Assign(o, v) == Success(o.(currentValue := Text(v)))
  {
  }

  /** The text form of a value for the option's kind; a button, or a mismatched value, is "". */
  function Render(kind: string, x: OptValue): (s: string)
    ensures kind == "check" && x.Flag? ==> (s == "true" <==> x.b) && (s == "false" <==> !x.b)
  {
    if kind == "string" && x.Text? then x.s
    else if kind == "check" && x.Flag? then (if x.b then "true" else "false")
    else if kind == "spin" && x.Number? then IntToString(x.i)
    else ""
  }

  /**
   * `get_default`: a string verbatim, a check as "true" or "false", a spin in
   * decimal that std::stoi reads back, and "" for every other kind.
   */
  function GetDefault(o: UciOption): (s: string)
    ensures o.kind == "string" && o.defaultValue.Text? ==> s == o.defaultValue.s
    ensures o.kind == "check" && o.defaultValue.Flag? ==> (s == "true" <==> o.defaultValue.b) && (s == "false" <==> !o.defaultValue.b)
    ensures o.kind == "spin" && o.defaultValue.Number? && INT_MIN <= o.defaultValue.i <= INT_MAX ==> Stoi(s) == Success(o.defaultValue.i)
    ensures o.kind != "string" && o.kind != "check" && o.kind != "spin" ==> s == ""
  {
    assert o.kind == "spin" && o.defaultValue.Number? && INT_MIN <= o.defaultValue.i <= INT_MAX ==>
      Stoi(IntToString(o.defaultValue.i)) == Success(o.defaultValue.i) by {
      if o.kind == "spin" && o.defaultValue.Number? && INT_MIN <= o.defaultValue.i <= INT_MAX {
        StoiRoundTrip(o.defaultValue.i);
      }
    }
    Render(o.kind, o.defaultValue)
  }

  /**
   * `get_current`: a string verbatim, a check as "true" or "false", a spin in
   * decimal that std::stoi reads back, and "" for every other kind.
   */
  function GetCurrent(o: UciOption): (s: string)
    ensures o.kind == "string" && o.currentValue.Text? ==> s == o.currentValue.s
    ensures o.kind == "check" && o.currentValue.Flag? ==> (s == "true" <==> o.currentValue.b) && (s == "false" <==> !o.currentValue.b)
    ensures o.kind == "spin" && o.currentValue.Number? && INT_MIN <= o.currentValue.i <= INT_MAX ==> Stoi(s) == Success(o.currentValue.i)
    ensures o.kind != "string" && o.kind != "check" && o.kind != "spin" ==> s == ""
  {
    assert o.kind == "spin" && o.currentValue.Number? && INT_MIN <= o.currentValue.i <= INT_MAX ==>
      Stoi(IntToString(o.currentValue.i)) == Success(o.currentValue.i) by {
      if o.kind == "spin" && o.currentValue.Number? && INT_MIN <= o.currentValue.i <= INT_MAX {
        StoiRoundTrip(o.currentValue.i);
      }
    }
    Render(o.kind, o.currentValue)
  }

  /** A freshly built option renders its default as its current value. */
  lemma {:induction false} FreshOptionCurrentIsDefault(v: int, min: int, max: int, b: bool, s: string)
    ensures GetCurrent(SpinOption(v, min, max)) == GetDefault(SpinOption(v, min, max)) == IntToString(v)
    ensures GetCurrent(CheckOption(b)) == GetDefault(CheckOption(b)) == (if b then "true" else "false")
    ensures GetCurrent(StringOption(s)) == GetDefault(StringOption(s)) == s
    ensures GetCurrent(ButtonOption()) == GetDefault(ButtonOption()) == ""
  {
  }

  /**
   * Assigning a spin the rendering of n and reading the current value back
   * gives the rendering of n clamped to the bounds.
   */
  lemma {:induction false} SpinAssignRoundTrip(o: UciOption, n: int)
    requires o.kind == "spin" && o.min <= o.max && INT_MIN <= n <= INT_MAX
    ensures Assign(o, IntToString(n)).Success?
    ensures GetCurrent(Assign(o, IntToString(n)).value) == IntToString(Clamp(n, o.min, o.max))
  {
    StoiRoundTrip(n);
  }

  /** Assigning a string option and reading it back returns the text verbatim. */
  lemma {:induction false} StringAssignRoundTrip(o: UciOption, v: string)
    requires o.kind == "string"
    ensures Assign(o, v).Success? && GetCurrent(Assign(o, v).value) == v
  {
  }

  /** The options map, filled by `init`. */
  class OptionsMap {
    var options: map<string, UciOption>

    constructor()
      ensures options == map[]
    {
      options := map[];
    }

    /** Registers the engine's eight options, replacing any earlier entries of those names. */
    method Init()
      modifies this
      ensures options == Registered(old(options))
    {
      options := options["Hash" := SpinOption(16, 1, 65536)];
      options := options["Threads" := SpinOption(1, 1, 128)];
      options := options["Ponder" := CheckOption(false)];
      options := options["Clear Hash" := ButtonOption()];
      options := options["Contempt" := SpinOption(0, -100, 100)];
      options := options["Move Overhead" := SpinOption(10, 0, 5000)];
      options := options["MultiPV" := SpinOption(1, 1, 500)];
      options := options["Skill Level" := SpinOption(20, 0, 20)];
    }

    /**
     * `Options[name] = v`. The non-const `operator[]` default-constructs a
     * button for a name that is not registered yet, and assigning to a
     * button changes nothing; when stoi throws, the entry stays as it was.
     */
    method Set(name: string, v: string) returns (r: Result<(), StoiError>)
      requires name in options ==> WellFormed(options[name])
      modifies this
      ensures var o := Entry(old(options), name);
        (Assign(o, v).Success? ==> r.Success? && options == old(options)[name := Assign(o, v).value]) &&
        (Assign(o, v).Failure? ==> r == Failure(Assign(o, v).error) && options == old(options))
      ensures name !in old(options) ==> r.Success? && options == old(options)[name := ButtonOption()]
    {
      var o := Entry(options, name);
      var a := Assign(o, v);
      if a.Failure? {
        return Failure(a.error);
      }
      options := options[name := a.value];
      r := Success(());
    }
  }

  /** The entry `operator[]` yields: the registered option, or a default-constructed button. */
  function Entry(options: map<string, UciOption>, name: string): UciOption
  {
    if name in options then options[name] else ButtonOption()
  }

  /** The names `init` registers. */
  const OptionNames: seq<string> :=
    ["Hash", "Threads", "Ponder", "Clear Hash", "Contempt", "Move Overhead", "MultiPV", "Skill Level"]

  /** `init` applied to a map of options. */
  function Registered(options: map<string, UciOption>): map<string, UciOption>
  {
    options["Hash" := SpinOption(16, 1, 65536)]
           ["Threads" := SpinOption(1, 1, 128)]
           ["Ponder" := CheckOption(false)]
           ["Clear Hash" := ButtonOption()]
           ["Contempt" := SpinOption(0, -100, 100)]
           ["Move Overhead" := SpinOption(10, 0, 5000)]
           ["MultiPV" := SpinOption(1, 1, 500)]
           ["Skill Level" := SpinOption(20, 0, 20)]
  }

  /** What `init` registers: defaults within bounds, and the listed values. */
  lemma {:induction false} RegisteredOptions(options: map<string, UciOption>)
    ensures var r := Registered(options);
      "Hash" in r && r["Hash"] == SpinOption(16, 1, 65536) &&
      "Threads" in r && r["Threads"] == SpinOption(1, 1, 128) &&
      "Move Overhead" in r && r["Move Overhead"] == SpinOption(10, 0, 5000) &&
      "Skill Level" in r && r["Skill Level"] == SpinOption(20, 0, 20) &&
      "Ponder" in r && GetCurrent(r["Ponder"]) == "false" &&
      "Clear Hash" in r && r["Clear Hash"].kind == "button"
    ensures var r := Registered(options);
      forall n :: n in OptionNames ==>
        (n in r && WellFormed(r[n]) &&
         (r[n].kind == "spin" ==> r[n].currentValue.Number? && r[n].min <= r[n].currentValue.i <= r[n].max))
  {
  }
}
