/**
 * The operation page (`OperationDemo`): the parameter map of the selected
 * operation, seeded from the declared defaults and edited key by key; the
 * keypair-like parameters, whose values are keypair names rewritten to
 * keypair file paths before formatting; the generated command and the
 * validation errors kept in step with the map; and the execute guard.
 */
module OperationDemo {
  import opened Wrappers
  import opened JsString
  import opened CommandTemplate
  import opened Types
  import opened Utils
  import opened OperationCatalog
  import opened SettingsStore

  // ---------------------------------------------------------------------
  // Keypair-like parameters
  // ---------------------------------------------------------------------

  /** The words that make a parameter keypair-like. */
  const KeypairWords: seq<string> := ["authority", "owner", "payer", "keypair", "signer"]

  /** A parameter whose name contains one of the words is edited with the keypair selector. */
  predicate IsKeypairParam(name: string) {
    Includes(name, "authority") || Includes(name, "owner") || Includes(name, "payer") ||
    Includes(name, "keypair") || Includes(name, "signer")
  }

  /** Keypair-like exactly when one of the words occurs somewhere in the name. */
  lemma KeypairParamIff(name: string)
    ensures IsKeypairParam(name) <==> exists w, i: nat :: w in KeypairWords && MatchAt(name, w, i)
  {
    forall w | w in KeypairWords ensures Includes(name, w) <==> exists i: nat :: MatchAt(name, w, i) {
      IncludesIff(name, w);
    }
    assert KeypairWords == ["authority", "owner", "payer", "keypair", "signer"];
  }

  /** `authority-type` holds an authority type such as `mint`, yet it counts as keypair-like. */
  lemma AuthorityTypeIsKeypairLike()
    ensures IsKeypairParam("authority-type")
  {
    assert MatchAt("authority-type", "authority", 0);
    IncludesIff("authority-type", "authority");
  }

  /** `${projectDirectory}/${value}-keypair.json`. */
  function KeypairValuePath(projectDirectory: string, v: Value): string
    requires v != Absent
  {
    projectDirectory + "/" + ValueText(v) + "-keypair.json"
  }

  /**
   * The rewritten path is the one the engine's `getKeypairPath` gives when a
   * project directory is set; with an empty directory there is no fallback
   * to `.`, so the path starts at the root.
   */
  lemma KeypairValuePathNoFallback(projectDirectory: string, name: string)
    requires name != ""
    ensures projectDirectory != "" ==>
      KeypairValuePath(projectDirectory, Str(name)) == GetKeypairPath(name, Some(projectDirectory))
    ensures projectDirectory == "" ==>
      KeypairValuePath(projectDirectory, Str(name)) == "/" + name + "-keypair.json" &&
      KeypairValuePath(projectDirectory, Str(name)) != GetKeypairPath(name, Some(projectDirectory))
  {
    if projectDirectory == "" {
      var p := KeypairValuePath(projectDirectory, Str(name));
      var q := GetKeypairPath(name, Some(projectDirectory));
      assert p[0] == '/' && q[0] == '.';
    }
  }

  // ---------------------------------------------------------------------
  // The parameter map
  // ---------------------------------------------------------------------

  /** The map seeded from the declared defaults, one parameter after another. */
  function Defaults(ps: seq<Parameter>): ParamMap
    decreases |ps|
  {
    if |ps| == 0 then map[]
    else
      var m := Defaults(ps[..|ps| - 1]);
      var p := ps[|ps| - 1];
      if p.defaultValue.Some? then m[p.name := p.defaultValue.value] else m
  }

  /** The seeded map holds exactly the names of the parameters that declare a default. */
  lemma {:induction false} DefaultsKeys(ps: seq<Parameter>)
    ensures forall n :: n in Defaults(ps) <==> exists i :: 0 <= i < |ps| && ps[i].name == n && ps[i].defaultValue.Some?
    decreases |ps|
  {
    if |ps| > 0 {
      var init := ps[..|ps| - 1];
      DefaultsKeys(init);
      assert forall i :: 0 <= i < |init| ==> init[i] == ps[i];
    }
  }

  /** Distinct names stay distinct without the last parameter, which none of the others shares. */
  lemma DistinctNamesInit(ps: seq<Parameter>)
    requires |ps| > 0 && DistinctNames(ps)
    ensures DistinctNames(ps[..|ps| - 1])
    ensures forall i :: 0 <= i < |ps| - 1 ==> ps[i].name != ps[|ps| - 1].name
    ensures ps[|ps| - 1].name !in ParamNames(ps[..|ps| - 1])
  {
    var init := ps[..|ps| - 1];
    assert forall i :: 0 <= i < |init| ==> init[i] == ps[i];
    var names := ParamNames(init);
    forall i | 0 <= i < |init| ensures names[i] != ps[|ps| - 1].name {
      assert names[i] == ps[i].name;
    }
  }

  /** The names of the parameters are those of all but the last, and the last one's. */
  lemma NamesInit(ps: seq<Parameter>)
    requires |ps| > 0
    ensures forall n :: n in ParamNames(ps) <==> n in ParamNames(ps[..|ps| - 1]) || n == ps[|ps| - 1].name
  {
    var init := ps[..|ps| - 1];
    var names, initNames := ParamNames(ps), ParamNames(init);
    forall i | 0 <= i < |names| ensures names[i] == (initNames + [ps[|ps| - 1].name])[i] {
      if i < |init| {
        assert init[i] == ps[i];
      }
    }
    assert names == initNames + [ps[|ps| - 1].name];
  }

  /** With distinct names, each such parameter is set to its own default. */
  lemma {:induction false} DefaultsValues(ps: seq<Parameter>)
    requires DistinctNames(ps)
    ensures forall i :: 0 <= i < |ps| && ps[i].defaultValue.Some? ==>
      ps[i].name in Defaults(ps) && Defaults(ps)[ps[i].name] == ps[i].defaultValue.value
    decreases |ps|
  {
    if |ps| > 0 {
      var init := ps[..|ps| - 1];
      DistinctNamesInit(ps);
      DefaultsValues(init);
      assert forall i :: 0 <= i < |init| ==> init[i] == ps[i];
    }
  }

  /** The first effect's `initialParams`, built parameter by parameter. */
  method InitialParams(ps: seq<Parameter>) returns (params: ParamMap)
    ensures params == Defaults(ps)
  {
    params := map[];
    for i := 0 to |ps|
      invariant params == Defaults(ps[..i])
    {
      assert ps[..i + 1][..i] == ps[..i];
      if ps[i].defaultValue.Some? {
        params := params[ps[i].name := ps[i].defaultValue.value];
      }
    }
    assert ps[..|ps|] == ps;
  }

  /** The second effect's `processedParams`: keypair-like parameters with a truthy value rewritten. */
  function Processed(ps: seq<Parameter>, vals: ParamMap, projectDirectory: string): ParamMap
    decreases |ps|
  {
    if |ps| == 0 then vals
    else
      var m := Processed(ps[..|ps| - 1], vals, projectDirectory);
      var p := ps[|ps| - 1];
      var v := Lookup(m, p.name);
      if IsKeypairParam(p.name) && Truthy(v) then m[p.name := Str(KeypairValuePath(projectDirectory, v))] else m
  }

  /**
   * With distinct names, the rewritten map has the same keys; a declared
   * keypair-like parameter with a truthy value reads as its keypair path
   * and every other entry is unchanged.
   */
  lemma {:induction false} ProcessedEntries(ps: seq<Parameter>, vals: ParamMap, projectDirectory: string)
    requires DistinctNames(ps)
    ensures forall n :: n in Processed(ps, vals, projectDirectory) <==> n in vals
    ensures forall n :: Lookup(Processed(ps, vals, projectDirectory), n) ==
                        if n in ParamNames(ps) && IsKeypairParam(n) && Truthy(Lookup(vals, n))
                        then Str(KeypairValuePath(projectDirectory, Lookup(vals, n)))
                        else Lookup(vals, n)
    decreases |ps|
  {
    if |ps| > 0 {
      DistinctNamesInit(ps);
      ProcessedEntries(ps[..|ps| - 1], vals, projectDirectory);
      NamesInit(ps);
    }
  }

  /** The loop that builds `processedParams`. */
  method ProcessParams(ps: seq<Parameter>, vals: ParamMap, projectDirectory: string) returns (processed: ParamMap)
    ensures processed == Processed(ps, vals, projectDirectory)
  {
    processed := vals;
    for i := 0 to |ps|
      invariant processed == Processed(ps[..i], vals, projectDirectory)
    {
      assert ps[..i + 1][..i] == ps[..i];
      var v := Lookup(processed, ps[i].name);
      if IsKeypairParam(ps[i].name) && Truthy(v) {
        processed := processed[ps[i].name := Str(KeypairValuePath(projectDirectory, v))];
      }
    }
    assert ps[..|ps|] == ps;
  }

  // ---------------------------------------------------------------------
  // Catalog entries on the page
  // ---------------------------------------------------------------------

  /** Loading a catalog entry seeds exactly its parameters that declare a default, each with that default. */
  lemma LoadedDefaults(id: string)
    requires GetOperationById(id).Some?
    ensures var ps := GetOperationById(id).value.parameters;
      (forall n :: n in Defaults(ps) <==> exists i :: 0 <= i < |ps| && ps[i].name == n && ps[i].defaultValue.Some?) &&
      (forall i :: 0 <= i < |ps| && ps[i].defaultValue.Some? ==>
        ps[i].name in Defaults(ps) && Defaults(ps)[ps[i].name] == ps[i].defaultValue.value)
  {
    var op := GetOperationById(id).value;
    FoundEntryChecked(id);
    DefaultsKeys(op.parameters);
    DistinctParamNames(op.parameters);
    DefaultsValues(op.parameters);
  }

  /**
   * On the `set-authority` page a truthy `authority-type` value, such as
   * `mint`, is rewritten to a keypair path before formatting.
   */
  lemma SetAuthorityTypeRewritten(vals: ParamMap, projectDirectory: string)
    requires Truthy(Lookup(vals, "authority-type"))
    ensures Lookup(Processed(SetAuthorityOp().parameters, vals, projectDirectory), "authority-type") ==
      Str(KeypairValuePath(projectDirectory, Lookup(vals, "authority-type")))
  {
    SetAuthorityDeclared();
    SetAuthorityNameChecks();
    AuthorityTypeIsKeypairLike();
    DistinctParamNames(SetAuthorityOp().parameters);
    ProcessedEntries(SetAuthorityOp().parameters, vals, projectDirectory);
    assert ParamNames(SetAuthorityOp().parameters)[1] == "authority-type";
  }

  // ---------------------------------------------------------------------
  // The page
  // ---------------------------------------------------------------------

  class OperationDemoPage {
    const settings: SettingsProvider
    /** How `new RegExp(pattern).test(value)` answers. */
    const matches: (string, string) -> bool
    /** The catalog ids are looked up in: `tokenOperations` in the app. */
    const catalog: seq<Operation>
    var operation: Option<Operation>
    var parameters: ParamMap
    var generatedCommand: string
    var errors: seq<string>
    var isExecuting: bool
    /** The outcome of the simulated execution, when one has arrived: success or not. */
    var executionResult: Option<bool>

    /**
     * The command and the errors are those of the current operation: the
     * command formatted from the rewritten map, the errors validated on the
     * map as entered.
     */
    predicate Current()
      reads this, settings
    {
      operation.Some? ==>
        generatedCommand == Format(Text(operation.value.command), operation.value.parameters,
          Processed(operation.value.parameters, parameters, settings.settings.projectDirectory)) &&
        errors == Validate(operation.value.parameters, parameters, matches)
    }

    constructor(settings: SettingsProvider, matches: (string, string) -> bool, catalog: seq<Operation>)
      ensures this.settings == settings && this.matches == matches && this.catalog == catalog
      ensures operation == None && parameters == map[] && generatedCommand == "" && errors == []
      ensures !isExecuting && executionResult == None
      ensures Current()
    {
      this.settings := settings;
      this.matches := matches;
      this.catalog := catalog;
      operation := None;
      parameters := map[];
      generatedCommand := "";
      errors := [];
      isExecuting := false;
      executionResult := None;
    }

    /** The second effect: recompute the command and the errors of the current operation. */
    method Refresh()
      modifies this
      ensures Current()
      ensures operation == old(operation) && parameters == old(parameters)
      ensures isExecuting == old(isExecuting) && executionResult == old(executionResult)
      ensures operation.None? ==> generatedCommand == old(generatedCommand) && errors == old(errors)
    {
      if operation.Some? {
        var op := operation.value;
        var processed := ProcessParams(op.parameters, parameters, settings.settings.projectDirectory);
        generatedCommand := FormatCommand(op, processed);
        errors := ValidateParameters(op, parameters, matches);
      }
    }

    /**
     * The first effect, for the id in the address: look the operation up;
     * when found, seed the map from its defaults. An unknown id leaves no
     * operation (the not-found view) and the map as it was.
     */
    method SelectOperation(operationId: string)
      modifies this
      ensures operationId == "" ==> unchanged(this)
      ensures operationId != "" ==> operation == FindOperation(catalog, operationId) && Current()
      ensures operationId != "" && operation.Some? ==> parameters == Defaults(operation.value.parameters)
      ensures operationId != "" && operation.None? ==>
        parameters == old(parameters) && generatedCommand == old(generatedCommand) && errors == old(errors)
      ensures isExecuting == old(isExecuting) && executionResult == old(executionResult)
    {
      if operationId == "" {
        return;
      }
      var op := FindOperation(catalog, operationId);
      Show(op);
    }

    /** Show what the lookup found: seed the map when there is an operation, then recompute. */
    method Show(op: Option<Operation>)
      modifies this
      ensures operation == op && Current()
      ensures op.Some? ==> parameters == Defaults(op.value.parameters)
      ensures op.None? ==>
        parameters == old(parameters) && generatedCommand == old(generatedCommand) && errors == old(errors)
      ensures isExecuting == old(isExecuting) && executionResult == old(executionResult)
    {
      operation := op;
      if op.Some? {
        parameters := InitialParams(op.value.parameters);
      }
      Refresh();
    }

    /** `handleParameterChange(name, value)`: set one key, then recompute. */
    method HandleParameterChange(name: string, value: Value)
      modifies this
      ensures parameters == old(parameters)[name := value]
      ensures forall n :: n != name ==> Lookup(parameters, n) == Lookup(old(parameters), n)
      ensures operation == old(operation) && Current()
      ensures isExecuting == old(isExecuting) && executionResult == old(executionResult)
    {
      parameters := parameters[name := value];
      Refresh();
    }

    /**
     * `handleExecuteCommand()`: nothing happens without an operation or
     * with errors; otherwise execution starts and the previous result is
     * cleared. The simulated outcome that arrives later is not modelled.
     */
    method HandleExecuteCommand()
      modifies this
      ensures old(operation).None? || |old(errors)| > 0 ==> unchanged(this)
      ensures old(operation).Some? && |old(errors)| == 0 ==> isExecuting && executionResult == None
      ensures operation == old(operation) && parameters == old(parameters)
      ensures generatedCommand == old(generatedCommand) && errors == old(errors)
    {
      if operation.None? || |errors| > 0 {
        return;
      }
      isExecuting := true;
      executionResult := None;
    }
  }
}
