/** The settings of the reinforcement-learning problem
    (`ReinforcementLearning::setConfiguration`): optional vector sizes and
    index lists, five mandatory settings, a type and two bounds per variable,
    an "Agent" solver, and no key left unrecognised. Every key is erased from
    the document as it is consumed; whatever remains is refused. */
module RlConfig {
  import opened Wrappers
  import opened Json

  datatype VariableKind = StateVariable | ActionVariable

  /** A bound is any float; `-Infinity` and `Infinity` are `JNonFinite`. */
  datatype Variable = Variable(kind: VariableKind, lowerBound: Json, upperBound: Json)

  datatype Settings = Settings(
    agentsPerEnvironment: nat,
    environmentCount: nat,
    environmentFunction: nat,
    actionsBetweenPolicyUpdates: nat,
    customSettings: Json,
    variables: seq<Variable>)

  const ActionVectorSize := "Action Vector Size"
  const StateVectorSize := "State Vector Size"
  const ActionVectorIndexes := "Action Vector Indexes"
  const StateVectorIndexes := "State Vector Indexes"
  const AgentsPerEnvironment := "Agents Per Environment"
  const EnvironmentCount := "Environment Count"
  const EnvironmentFunction := "Environment Function"
  const ActionsBetweenPolicyUpdates := "Actions Between Policy Updates"
  const CustomSettings := "Custom Settings"

  /** Every key this module consumes from the problem document. */
  const Recognized: set<string> :=
    {"Results", ActionVectorSize, StateVectorSize, ActionVectorIndexes, StateVectorIndexes,
     AgentsPerEnvironment, EnvironmentCount, EnvironmentFunction, ActionsBetweenPolicyUpdates, CustomSettings}

  /** The keys consumed from each variable's document. */
  const VariableKeys: set<string> := {"Type", "Lower Bound", "Upper Bound"}

  /** `get<size_t>()`: a non-negative number, its fraction dropped. */
  function AsCount(v: Json): (r: Option<nat>)
    ensures r.Some? <==> v.JNum? && v.x >= 0.0
    ensures r.Some? ==> r.value as real <= v.x < r.value as real + 1.0
  {
    if v.JNum? && v.x >= 0.0 then Some(v.x.Floor as nat) else None
  }

  /** `get<std::vector<size_t>>()`. */
  predicate IsIndexList(v: Json)
  {
    v.JArr? && forall i :: 0 <= i < |v.items| ==> AsCount(v.items[i]).Some?
  }

  /** `get<float>()`: any number, finite or not. */
  predicate IsFloat(v: Json)
  {
    v.JNum? || v.JNonFinite?
  }

  /** `js` without the keys in `keys` (`eraseValue` for each of them). */
  function Without(js: Json, keys: set<string>): (r: Json)
    ensures js.JObj? ==> r.JObj? && r.fields.Keys == js.fields.Keys - keys
    ensures forall k :: k !in keys ==> Lookup(r, [k]) == Lookup(js, [k])
    ensures forall k :: k in keys ==> Lookup(r, [k]).None?
  {
    if js.JObj? then JObj(js.fields - keys) else js
  }

  // ---------------------------------------------------------------------
  // The steps of `setConfiguration`, in the order the source takes them.

  /** An optional size or index list, when present, must have its type. */
  function CheckOptional(js: Json, key: string): (o: Outcome)
    ensures o.Pass? <==> match Lookup(js, [key])
                         case None => true
                         case Some(v) => if key in {ActionVectorSize, StateVectorSize} then AsCount(v).Some? else IsIndexList(v)
  {
    match Lookup(js, [key])
    case None => Pass
    case Some(v) =>
      if key in {ActionVectorSize, StateVectorSize} then
        if AsCount(v).Some? then Pass else Fail(key + " is not an unsigned integer")
      else if IsIndexList(v) then Pass else Fail(key + " is not a list of unsigned integers")
  }

  function CheckOptionals(js: Json): (o: Outcome)
  {
    var a := CheckOptional(js, ActionVectorSize);
    var b := CheckOptional(js, StateVectorSize);
    var c := CheckOptional(js, ActionVectorIndexes);
    var d := CheckOptional(js, StateVectorIndexes);
    if a.Fail? then a else if b.Fail? then b else if c.Fail? then c else d
  }

  function Missing(key: string): string
  {
    "No value provided for mandatory setting: [" + key + "] required by reinforcementLearning"
  }

  function MandatoryCount(js: Json, key: string): (r: Result<nat>)
    ensures r.Ok? <==> Lookup(js, [key]).Some? && AsCount(Lookup(js, [key]).value).Some?
    ensures r.Ok? ==> Some(r.value) == AsCount(Lookup(js, [key]).value)
  {
    match Lookup(js, [key])
    case None => Err(Missing(key))
    case Some(v) => if AsCount(v).Some? then Ok(AsCount(v).value) else Err(key + " is not an unsigned integer")
  }

  function Mandatory(js: Json, key: string): (r: Result<Json>)
    ensures r.Ok? <==> Lookup(js, [key]).Some?
    ensures r.Ok? ==> r.value == Lookup(js, [key]).value
  {
    match Lookup(js, [key])
    case None => Err(Missing(key))
    case Some(v) => Ok(v)
  }

  /** What a variable's document must hold: a "State" or "Action" type and
      two float bounds. */
  predicate WellFormedVariable(v: Json)
  {
    && Lookup(v, ["Type"]).Some? && Lookup(v, ["Type"]).value in {JStr("State"), JStr("Action")}
    && Lookup(v, ["Lower Bound"]).Some? && IsFloat(Lookup(v, ["Lower Bound"]).value)
    && Lookup(v, ["Upper Bound"]).Some? && IsFloat(Lookup(v, ["Upper Bound"]).value)
  }

  function Bound(v: Json, key: string): (r: Result<Json>)
    ensures r.Ok? <==> Lookup(v, [key]).Some? && IsFloat(Lookup(v, [key]).value)
    ensures r.Ok? ==> r.value == Lookup(v, [key]).value
  {
    match Lookup(v, [key])
    case None => Err(Missing(key))
    case Some(b) => if IsFloat(b) then Ok(b) else Err(key + " is not a number")
  }

  function ParseVariable(v: Json): (r: Result<Variable>)
    ensures r.Ok? <==> WellFormedVariable(v)
    ensures r.Ok? ==> (r.value.kind == StateVariable <==> Lookup(v, ["Type"]) == Some(JStr("State")))
    ensures r.Ok? ==> (&& r.value.lowerBound == Lookup(v, ["Lower Bound"]).value
                       && r.value.upperBound == Lookup(v, ["Upper Bound"]).value)
  {
    match Lookup(v, ["Type"])
    case None => Err(Missing("Type"))
    case Some(t) =>
      if !t.JStr? then Err("Type is not a string")
      else if t.s != "State" && t.s != "Action" then Err("Unrecognized value (" + t.s + ") provided for mandatory setting: [Type]")
      else
        var lower :- Bound(v, "Lower Bound");
        var upper :- Bound(v, "Upper Bound");
        Ok(Variable(if t.s == "State" then StateVariable else ActionVariable, lower, upper))
  }

  /** The variables in order; the first one that fails refuses the
      configuration. */
  function ParseVariables(vs: seq<Json>): (r: Result<seq<Variable>>)
    ensures r.Ok? <==> forall i :: 0 <= i < |vs| ==> ParseVariable(vs[i]).Ok?
    ensures r.Ok? ==> |r.value| == |vs| && forall i :: 0 <= i < |vs| ==> r.value[i] == ParseVariable(vs[i]).value
  {
    if vs == [] then Ok([])
    else
      var init := ParseVariables(vs[..|vs| - 1]);
      var last := ParseVariable(vs[|vs| - 1]);
      if init.Err? then init
      else if last.Err? then Err(last.msg)
      else Ok(init.value + [last.value])
  }

  /** The refusal is the first failing variable's. */
  lemma {:induction false} ParseVariablesStopsAtFirst(vs: seq<Json>, i: nat)
    requires i < |vs| && ParseVariables(vs[..i]).Ok? && ParseVariable(vs[i]).Err?
    ensures ParseVariables(vs) == Err(ParseVariable(vs[i]).msg)
    decreases |vs|
  {
    if i == |vs| - 1 {
      assert vs[..|vs| - 1] == vs[..i];
    } else {
      assert vs[..|vs| - 1][..i] == vs[..i];
      ParseVariablesStopsAtFirst(vs[..|vs| - 1], i);
    }
  }

  // ---------------------------------------------------------------------
  // The solver-name test: lower-cased, with C `isspace` characters removed,
  // the solver's type must start with "agent".

  predicate IsSpace(c: char)
  {
    c == ' ' || 9 <= c as int <= 13
  }

  predicate IsUpper(c: char)
  {
    'A' <= c <= 'Z'
  }

  function Lower(c: char): (r: char)
    ensures !IsUpper(r) && IsSpace(r) == IsSpace(c)
    ensures !IsUpper(c) ==> r == c
  {
    if IsUpper(c) then (c as int + 32) as char else c
  }

  function Normalize(s: string): (r: string)
    ensures |r| <= |s|
    ensures forall i :: 0 <= i < |r| ==> !IsSpace(r[i]) && !IsUpper(r[i])
  {
    if s == [] then []
    else (if IsSpace(s[0]) then [] else [Lower(s[0])]) + Normalize(s[1..])
  }

  /** A string with no space and no upper-case letter is its own normal form. */
  lemma {:induction false} NormalizeFixed(s: string)
    requires forall i :: 0 <= i < |s| ==> !IsSpace(s[i]) && !IsUpper(s[i])
    ensures Normalize(s) == s
  {
    if s != [] {
      NormalizeFixed(s[1..]);
      assert [s[0]] + s[1..] == s;
    }
  }

  lemma NormalizeIdempotent(s: string)
    ensures Normalize(Normalize(s)) == Normalize(s)
  {
    NormalizeFixed(Normalize(s));
  }

  predicate CompatibleSolver(solverType: string)
  {
    "agent" <= Normalize(solverType)
  }

  /** Spacing and letter case of the solver's type do not matter. */
  lemma CompatibleSolverNormalized(s: string)
    ensures CompatibleSolver(s) <==> CompatibleSolver(Normalize(s))
  {
    NormalizeIdempotent(s);
  }

  function CheckSolver(solverType: Json): (o: Outcome)
    ensures o.Pass? <==> solverType.JStr? && CompatibleSolver(solverType.s)
  {
    if !solverType.JStr? then Fail("Solver Type is not a string")
    else if CompatibleSolver(solverType.s) then Pass
    else Fail("Specified solver (" + solverType.s + ") is not compatible with problem of type: reinforcementLearning")
  }

  /** The keys left once this module, the base problem (`baseKeys`) and the
      "Type" key have been consumed. */
  function Leftover(js: Json, baseKeys: set<string>): set<string>
  {
    if js.JObj? then js.fields.Keys - Recognized - baseKeys - {"Type"} else {}
  }

  /** The five mandatory settings, read in the order of the source. */
  datatype Mandatories = Mandatories(agents: nat, count: nat, envFunction: nat, actions: nat, custom: Json)

  function MandatorySettings(js: Json): (r: Result<Mandatories>)
    ensures r.Ok? <==> (CountAt(js, AgentsPerEnvironment) && CountAt(js, EnvironmentCount)
                        && CountAt(js, EnvironmentFunction) && CountAt(js, ActionsBetweenPolicyUpdates)
                        && Lookup(js, [CustomSettings]).Some?)
    ensures r.Ok? ==> (&& Some(r.value.agents) == AsCount(Lookup(js, [AgentsPerEnvironment]).value)
                       && Some(r.value.count) == AsCount(Lookup(js, [EnvironmentCount]).value)
                       && Some(r.value.envFunction) == AsCount(Lookup(js, [EnvironmentFunction]).value)
                       && Some(r.value.actions) == AsCount(Lookup(js, [ActionsBetweenPolicyUpdates]).value)
                       && r.value.custom == Lookup(js, [CustomSettings]).value)
  {
    var agents :- MandatoryCount(js, AgentsPerEnvironment);
    var count :- MandatoryCount(js, EnvironmentCount);
    var envFunction :- MandatoryCount(js, EnvironmentFunction);
    var actions :- MandatoryCount(js, ActionsBetweenPolicyUpdates);
    var custom :- Mandatory(js, CustomSettings);
    Ok(Mandatories(agents, count, envFunction, actions, custom))
  }

  /** The settings the source accepts: `variables` are the experiment's
      variable documents (empty when it has none), `solverType` its solver's
      "Type" and `baseKeys` the keys the base problem consumes. */
  function Configuration(js: Json, variables: seq<Json>, solverType: Json, baseKeys: set<string>): (r: Result<Settings>)
    ensures !CountAt(js, AgentsPerEnvironment) || !CountAt(js, EnvironmentCount) || !CountAt(js, EnvironmentFunction)
            || !CountAt(js, ActionsBetweenPolicyUpdates) || Lookup(js, [CustomSettings]).None?
            ==> r.Err?
    ensures r.Ok? ==> (&& Some(r.value.agentsPerEnvironment) == AsCount(Lookup(js, [AgentsPerEnvironment]).value)
                       && Some(r.value.environmentCount) == AsCount(Lookup(js, [EnvironmentCount]).value)
                       && Some(r.value.environmentFunction) == AsCount(Lookup(js, [EnvironmentFunction]).value)
                       && Some(r.value.actionsBetweenPolicyUpdates) == AsCount(Lookup(js, [ActionsBetweenPolicyUpdates]).value)
                       && r.value.customSettings == Lookup(js, [CustomSettings]).value)
    ensures r.Ok? ==> (&& |r.value.variables| == |variables|
                       && forall i :: 0 <= i < |variables| ==>
                            ParseVariable(variables[i]).Ok? && r.value.variables[i] == ParseVariable(variables[i]).value)
  {
    var optionals := CheckOptionals(js);
    if optionals.Fail? then Err(optionals.msg)
    else
      var m :- MandatorySettings(js);
      var vars :- ParseVariables(variables);
      var solver := CheckSolver(solverType);
      if solver.Fail? then Err(solver.msg)
      else if Leftover(js, baseKeys) != {} then Err("Unrecognized settings for Korali module: reinforcementLearning")
      else Ok(Settings(m.agents, m.count, m.envFunction, m.actions, m.custom, vars))
  }


  predicate CountAt(js: Json, key: string)
  {
    Lookup(js, [key]).Some? && AsCount(Lookup(js, [key]).value).Some?
  }

  predicate OptionalOk(js: Json, key: string, isCount: bool)
  {
    Lookup(js, [key]).Some? ==> if isCount then AsCount(Lookup(js, [key]).value).Some? else IsIndexList(Lookup(js, [key]).value)
  }

  /** Everything an accepted document must satisfy, stated declaratively. */
  predicate Acceptable(js: Json, variables: seq<Json>, solverType: Json, baseKeys: set<string>)
  {
    && OptionalOk(js, ActionVectorSize, true) && OptionalOk(js, StateVectorSize, true)
    && OptionalOk(js, ActionVectorIndexes, false) && OptionalOk(js, StateVectorIndexes, false)
    && CountAt(js, AgentsPerEnvironment) && CountAt(js, EnvironmentCount)
    && CountAt(js, EnvironmentFunction) && CountAt(js, ActionsBetweenPolicyUpdates)
    && Lookup(js, [CustomSettings]).Some?
    && (forall i :: 0 <= i < |variables| ==> WellFormedVariable(variables[i]))
    && solverType.JStr? && CompatibleSolver(solverType.s)
    && js.JObj? && js.fields.Keys <= Recognized + baseKeys + {"Type"}
  }

  /** A configuration is accepted exactly when it is acceptable: every
      refusal of the source is one of the conditions above, and nothing else
      is refused. */
  lemma ConfigurationAccepted(js: Json, variables: seq<Json>, solverType: Json, baseKeys: set<string>)
    ensures Configuration(js, variables, solverType, baseKeys).Ok? <==> Acceptable(js, variables, solverType, baseKeys)
  {
    var ok := Configuration(js, variables, solverType, baseKeys).Ok?;
    if ok {
      assert Lookup(js, [AgentsPerEnvironment]).Some?;
      assert js.JObj?;
    }
    if Acceptable(js, variables, solverType, baseKeys) {
      assert CheckOptionals(js).Pass?;
      assert Leftover(js, baseKeys) == {};
    }
  }

  /** A variable typed other than "State" or "Action", or a key nobody
      consumes, refuses the configuration. */
  lemma ConfigurationRefusals(js: Json, variables: seq<Json>, solverType: Json, baseKeys: set<string>, i: nat, key: string)
    ensures i < |variables| && Lookup(variables[i], ["Type"]).Some?
            && Lookup(variables[i], ["Type"]).value !in {JStr("State"), JStr("Action")}
            ==> Configuration(js, variables, solverType, baseKeys).Err?
    ensures js.JObj? && key in js.fields && key !in Recognized + baseKeys + {"Type"}
            ==> Configuration(js, variables, solverType, baseKeys).Err?
    ensures !(solverType.JStr? && CompatibleSolver(solverType.s)) ==> Configuration(js, variables, solverType, baseKeys).Err?
  {
    ConfigurationAccepted(js, variables, solverType, baseKeys);
  }

  // ---------------------------------------------------------------------
  // ---------------------------------------------------------------------
  // The consuming reader itself.

  /** Takes `key` out of `doc`: its value, and the document without it. */
  method Take(doc: Json, key: string) returns (v: Option<Json>, rest: Json)
    ensures v == Lookup(doc, [key])
    ensures rest == Without(doc, {key})
  {
    v := Lookup(doc, [key]);
    rest := Without(doc, {key});
  }

  const OptionalPart: set<string> := {"Results", ActionVectorSize, StateVectorSize, ActionVectorIndexes, StateVectorIndexes}

  /** "Results" and the four optional settings, each checked and erased. */
  method TakeOptionals(js: Json) returns (o: Outcome, rest: Json)
    ensures o == CheckOptionals(js)
    ensures o.Pass? ==> rest == Without(js, OptionalPart)
  {
    hide CheckOptional, Without;
    var v: Option<Json>;
    v, rest := Take(js, "Results");
    ErasedCheck(js, {"Results"}, ActionVectorSize);
    o := CheckOptional(rest, ActionVectorSize);
    if o.Fail? { return; }
    v, rest := Take(rest, ActionVectorSize);
    WithoutTwice(js, {"Results"}, {ActionVectorSize});
    assert {"Results"} + {ActionVectorSize} == {"Results", ActionVectorSize};
    ErasedCheck(js, {"Results", ActionVectorSize}, StateVectorSize);
    o := CheckOptional(rest, StateVectorSize);
    if o.Fail? { return; }
    v, rest := Take(rest, StateVectorSize);
    WithoutTwice(js, {"Results", ActionVectorSize}, {StateVectorSize});
    assert {"Results", ActionVectorSize} + {StateVectorSize} == {"Results", ActionVectorSize, StateVectorSize};
    ErasedCheck(js, {"Results", ActionVectorSize, StateVectorSize}, ActionVectorIndexes);
    o := CheckOptional(rest, ActionVectorIndexes);
    if o.Fail? { return; }
    v, rest := Take(rest, ActionVectorIndexes);
    WithoutTwice(js, {"Results", ActionVectorSize, StateVectorSize}, {ActionVectorIndexes});
    assert {"Results", ActionVectorSize, StateVectorSize} + {ActionVectorIndexes} == {"Results", ActionVectorSize, StateVectorSize, ActionVectorIndexes};
    ErasedCheck(js, {"Results", ActionVectorSize, StateVectorSize, ActionVectorIndexes}, StateVectorIndexes);
    o := CheckOptional(rest, StateVectorIndexes);
    if o.Fail? { return; }
    v, rest := Take(rest, StateVectorIndexes);
    WithoutTwice(js, {"Results", ActionVectorSize, StateVectorSize, ActionVectorIndexes}, {StateVectorIndexes});
    assert {"Results", ActionVectorSize, StateVectorSize, ActionVectorIndexes} + {StateVectorIndexes} == OptionalPart;
  }

  /** Erasing other keys does not change the check of an optional key. */
  lemma ErasedCheck(js: Json, erased: set<string>, key: string)
    requires key !in erased
    ensures CheckOptional(Without(js, erased), key) == CheckOptional(js, key)
  {
  }

  lemma WithoutTwice(js: Json, a: set<string>, b: set<string>)
    ensures Without(Without(js, a), b) == Without(js, a + b)
  {
    if js.JObj? {
      assert (js.fields - a) - b == js.fields - (a + b);
    }
  }

  lemma MandatoryPartErased(js: Json)
    ensures Without(Without(Without(Without(Without(Without(js, OptionalPart), {AgentsPerEnvironment}), {EnvironmentCount}),
                                    {EnvironmentFunction}), {ActionsBetweenPolicyUpdates}), {CustomSettings})
            == Without(js, Recognized)
  {
    WithoutTwice(js, OptionalPart, {AgentsPerEnvironment});
    WithoutTwice(js, OptionalPart + {AgentsPerEnvironment}, {EnvironmentCount});
    WithoutTwice(js, OptionalPart + {AgentsPerEnvironment} + {EnvironmentCount}, {EnvironmentFunction});
    WithoutTwice(js, OptionalPart + {AgentsPerEnvironment} + {EnvironmentCount} + {EnvironmentFunction}, {ActionsBetweenPolicyUpdates});
    WithoutTwice(js, OptionalPart + {AgentsPerEnvironment} + {EnvironmentCount} + {EnvironmentFunction} + {ActionsBetweenPolicyUpdates}, {CustomSettings});
    assert OptionalPart + {AgentsPerEnvironment} + {EnvironmentCount} + {EnvironmentFunction} + {ActionsBetweenPolicyUpdates} + {CustomSettings} == Recognized;
  }

  /** The mandatory settings, each read and erased; a missing one stops. */
  method TakeMandatories(js: Json, doc: Json) returns (r: Result<Mandatories>, rest: Json)
    requires doc == Without(js, OptionalPart)
    ensures r == MandatorySettings(js)
    ensures r.Ok? ==> rest == Without(js, Recognized)
  {
    var v: Option<Json>;
    var agents := MandatoryCount(js, AgentsPerEnvironment);
    var count := MandatoryCount(js, EnvironmentCount);
    var envFunction := MandatoryCount(js, EnvironmentFunction);
    var actions := MandatoryCount(js, ActionsBetweenPolicyUpdates);
    var custom := Mandatory(js, CustomSettings);
    v, rest := Take(doc, AgentsPerEnvironment);
    if agents.Err? { return Err(agents.msg), rest; }
    v, rest := Take(rest, EnvironmentCount);
    if count.Err? { return Err(count.msg), rest; }
    v, rest := Take(rest, EnvironmentFunction);
    if envFunction.Err? { return Err(envFunction.msg), rest; }
    v, rest := Take(rest, ActionsBetweenPolicyUpdates);
    if actions.Err? { return Err(actions.msg), rest; }
    v, rest := Take(rest, CustomSettings);
    if custom.Err? { return Err(custom.msg), rest; }
    MandatoryPartErased(js);
    r := Ok(Mandatories(agents.value, count.value, envFunction.value, actions.value, custom.value));
  }

  /** Each variable's type and bounds, read and erased in order. */
  method TakeVariables(variables: seq<Json>) returns (r: Result<seq<Variable>>, restVariables: seq<Json>)
    ensures r == ParseVariables(variables)
    ensures r.Ok? ==> (&& |restVariables| == |variables|
                       && forall i :: 0 <= i < |variables| ==> restVariables[i] == Without(variables[i], VariableKeys))
  {
    var parsed: seq<Variable> := [];
    restVariables := variables;
    var i := 0;
    while i < |variables|
      invariant 0 <= i <= |variables| && |restVariables| == |variables|
      invariant ParseVariables(variables[..i]) == Ok(parsed)
      invariant forall j :: 0 <= j < i ==> restVariables[j] == Without(variables[j], VariableKeys)
    {
      var p := ParseVariable(variables[i]);
      assert variables[..i + 1][..i] == variables[..i];
      if p.Err? {
        ParseVariablesStopsAtFirst(variables, i);
        return Err(p.msg), restVariables;
      }
      restVariables := restVariables[i := Without(variables[i], VariableKeys)];
      parsed := parsed + [p.value];
      i := i + 1;
    }
    assert variables[..i] == variables;
    r := Ok(parsed);
  }

  /** `setConfiguration` as the source runs it: each key is erased from the
      document once consumed, the variables' documents lose their type and
      bounds, and the configuration is refused unless the document is empty
      at the end. `rest` and `restVariables` are the documents as left. */
  method SetConfiguration(js: Json, variables: seq<Json>, solverType: Json, baseKeys: set<string>)
    returns (r: Result<Settings>, rest: Json, restVariables: seq<Json>)
    ensures r == Configuration(js, variables, solverType, baseKeys)
    ensures r.Ok? ==> rest == JObj(map[])
    ensures r.Ok? ==> (&& |restVariables| == |variables|
                       && forall i :: 0 <= i < |variables| ==> restVariables[i] == Without(variables[i], VariableKeys))
  {
    hide CheckOptionals, MandatorySettings, ParseVariables, ParseVariable, CheckSolver;
    restVariables := variables;
    var o;
    o, rest := TakeOptionals(js);
    if o.Fail? { return Err(o.msg), rest, restVariables; }
    var m;
    m, rest := TakeMandatories(js, rest);
    if m.Err? { return Err(m.msg), rest, restVariables; }
    var vars;
    vars, restVariables := TakeVariables(variables);
    if vars.Err? { return Err(vars.msg), rest, restVariables; }
    o := CheckSolver(solverType);
    if o.Fail? { return Err(o.msg), rest, restVariables; }
    rest := Without(rest, baseKeys);
    var v;
    v, rest := Take(rest, "Type");
    assert rest.JObj? && rest.fields.Keys == Leftover(js, baseKeys);
    if rest != JObj(map[]) {
      return Err("Unrecognized settings for Korali module: reinforcementLearning"), rest, restVariables;
    }
    r := Ok(Settings(m.value.agents, m.value.count, m.value.envFunction, m.value.actions, m.value.custom, vars.value));
  }
}
