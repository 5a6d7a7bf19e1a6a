/**
 * The tuning-parameter registry of src/tune.cpp: a map from parameter name
 * to its value, bounds and step, written by `init` and `set` and read by `get`.
 */
module Tune {
  datatype Parameter = Parameter(value: int, min: int, max: int, step: int)

  /** The names `init` defines. */
  const TunedNames: seq<string> :=
    ["PawnVal", "KnightVal", "BishopVal", "RookVal", "QueenVal", "LMR_Base", "LMR_Div"]

  /** `init` applied to a map of parameters: the seven entries written in order. */
  function WithDefaults(params: map<string, Parameter>): (ps: map<string, Parameter>)
  {
    params["PawnVal" := Parameter(100, 50, 150, 5)]
          ["KnightVal" := Parameter(320, 200, 400, 5)]
          ["BishopVal" := Parameter(330, 200, 400, 5)]
          ["RookVal" := Parameter(500, 300, 700, 5)]
          ["QueenVal" := Parameter(900, 700, 1100, 5)]
          ["LMR_Base" := Parameter(50, 10, 100, 5)]
          ["LMR_Div" := Parameter(200, 100, 400, 10)]
  }

  /** `get` on a map of parameters: the stored value, or 0 for an unknown name. */
  function Get(params: map<string, Parameter>, name: string): (v: int)
    ensures name !in params ==> v == 0
    ensures name in params ==> v == params[name].value
  {
    if name in params then params[name].value else 0
  }

  /** `set` on a map of parameters: only an existing name is updated, and only its value. */
  function Set(params: map<string, Parameter>, name: string, value: int): (ps: map<string, Parameter>)
    ensures ps.Keys == params.Keys
    ensures name in params ==> ps[name] == params[name].(value := value)
    ensures forall n :: n in params && n != name ==> ps[n] == params[n]
  {
    if name in params then params[name := params[name].(value := value)] else params
  }

  /** Setting a known name makes it read back; nothing else changes, and bounds are not enforced. */
  lemma {:induction false} SetThenGet(params: map<string, Parameter>, name: string, value: int, other: string)
    requires name in params && other != name
    ensures Get(Set(params, name, value), name) == value
    ensures Get(Set(params, name, value), other) == Get(params, other)
    ensures Set(params, name, value)[name].min == params[name].min
    ensures Set(params, name, value)[name].max == params[name].max
  {
  }

  /** Setting an unknown name changes nothing. */
  lemma {:induction false} SetUnknown(params: map<string, Parameter>, name: string, value: int)
    requires name !in params
    ensures Set(params, name, value) == params
    ensures Get(Set(params, name, value), name) == 0
  {
  }

  class Registry {
    var params: map<string, Parameter>

    constructor()
      ensures params == map[]
    {
      params := map[];
    }

    /** Writes the seven parameters, overwriting any earlier entries of the same names. */
    method Init()
      modifies this
      ensures params == WithDefaults(old(params))
    {
      params := params["PawnVal" := Parameter(100, 50, 150, 5)];
      params := params["KnightVal" := Parameter(320, 200, 400, 5)];
      params := params["BishopVal" := Parameter(330, 200, 400, 5)];
      params := params["RookVal" := Parameter(500, 300, 700, 5)];
      params := params["QueenVal" := Parameter(900, 700, 1100, 5)];
      params := params["LMR_Base" := Parameter(50, 10, 100, 5)];
      params := params["LMR_Div" := Parameter(200, 100, 400, 10)];
    }

    method SetParam(name: string, value: int)
      modifies this
      ensures params == Set(old(params), name, value)
    {
      if name in params {
        params := params[name := params[name].(value := value)];
      }
    }

    method GetParam(name: string) returns (v: int)
      ensures v == Get(params, name)
    {
      if name in params {
        return params[name].value;
      }
      return 0;
    }
  }

  /**
   * After `init` the seven names are present, each default lies within its
   * bounds with a positive step, and every other entry is as it was.
   */
  lemma {:induction false} DefaultsInBounds(params: map<string, Parameter>, name: string)
    ensures name in TunedNames ==>
      name in WithDefaults(params) &&
      var p := WithDefaults(params)[name]; p.min <= p.value <= p.max && p.step > 0 && Get(WithDefaults(params), name) != 0
    ensures name !in TunedNames ==> Get(WithDefaults(params), name) == Get(params, name)
  {
  }

  /** The values `init` gives. */
  lemma {:induction false} DefaultValues(params: map<string, Parameter>)
    ensures Get(WithDefaults(params), "PawnVal") == 100 && Get(WithDefaults(params), "KnightVal") == 320
    ensures Get(WithDefaults(params), "BishopVal") == 330 && Get(WithDefaults(params), "RookVal") == 500
    ensures Get(WithDefaults(params), "QueenVal") == 900
    ensures Get(WithDefaults(params), "LMR_Base") == 50 && Get(WithDefaults(params), "LMR_Div") == 200
  {
  }
}
