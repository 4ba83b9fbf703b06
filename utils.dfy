/**
 * The command templating and validation engine: `formatCommand`,
 * `validateParameters`, `getKeypairPath` and `truncateText`.
 */
module Utils {
  import opened Wrappers
  import opened JsString
  import opened CommandTemplate
  import opened Types

  // ---------------------------------------------------------------------
  // JavaScript views of a value
  // ---------------------------------------------------------------------

  /** JavaScript truthiness. */
  predicate Truthy(v: Value) {
    match v
    case Absent => false
    case Str(s) => s != ""
    case Num(n) => n != 0
    case NaN => false
    case Bool(b) => b
  }

  /** `String(value)` for a value that is neither `undefined` nor `null`. */
  function ValueText(v: Value): (r: string)
    requires v != Absent
  {
    match v
    case Str(s) => s
    case Num(n) => IntToDecimal(n)
    case NaN => "NaN"
    case Bool(b) => if b then "true" else "false"
  }

  /**
   * The text `formatCommand` puts in place of a parameter's token, or None
   * when it leaves the token alone: an empty value, or any `file` parameter.
   */
  function Rendered(kind: ParamKind, v: Value): (r: Option<string>)
    ensures r.None? <==> IsEmpty(v) || kind == FileKind
  {
    if IsEmpty(v) then None
    else match kind
      case StringKind => Some(ValueText(v))
      case NumberKind => Some(ValueText(v))
      case BooleanKind => Some(if Truthy(v) then "true" else "false")
      case FileKind => None
  }

  /** Numbers render as their decimal text and booleans as `true`/`false` by truthiness. */
  lemma RenderedForms(kind: ParamKind, v: Value)
    ensures kind == NumberKind && v.Num? ==> Rendered(kind, v) == Some(IntToDecimal(v.n))
    ensures kind == BooleanKind && !IsEmpty(v) ==>
      Rendered(kind, v) == Some(if Truthy(v) then "true" else "false")
    ensures kind == StringKind && v.Str? && v.s != "" ==> Rendered(kind, v) == Some(v.s)
  {
  }

  // ---------------------------------------------------------------------
  // formatCommand
  // ---------------------------------------------------------------------

  /** The command after `formatCommand` has handled parameter `p`. */
  function FormatStep(command: string, p: Parameter, vals: ParamMap): string {
    match Rendered(p.kind, Lookup(vals, p.name))
    case None => command
    case Some(text) => ReplaceFirst(command, Token(p.name), text)
  }

  /** The command after `formatCommand` has handled `ps`, in declaration order. */
  function Format(command: string, ps: seq<Parameter>, vals: ParamMap): string
    decreases |ps|
  {
    if |ps| == 0 then command
    else FormatStep(Format(command, ps[..|ps| - 1], vals), ps[|ps| - 1], vals)
  }

  /**
   * `formatCommand(operation, parameters)`: for each declared parameter in
   * order, the first `{name}` token is replaced by the value's text.
   */
  method FormatCommand(op: Operation, vals: ParamMap) returns (command: string)
    ensures command == Format(Text(op.command), op.parameters, vals)
  {
    command := Text(op.command);
    for i := 0 to |op.parameters|
      invariant command == Format(Text(op.command), op.parameters[..i], vals)
    {
      assert op.parameters[..i + 1][..i] == op.parameters[..i];
      var param := op.parameters[i];
      var value := Lookup(vals, param.name);
      if !IsEmpty(value) {
        if param.kind == StringKind {
          command := ReplaceFirst(command, Token(param.name), ValueText(value));
        } else if param.kind == NumberKind {
          command := ReplaceFirst(command, Token(param.name), ValueText(value));
        } else if param.kind == BooleanKind {
          command := ReplaceFirst(command, Token(param.name), if Truthy(value) then "true" else "false");
        }
      }
    }
    assert op.parameters[..|op.parameters|] == op.parameters;
  }

  /** The names of the parameters in `ps` that `formatCommand` substitutes, in order. */
  function Filled(ps: seq<Parameter>, vals: ParamMap): (names: seq<string>)
    ensures forall n :: n in names <==>
      exists p :: p in ps && p.name == n && Rendered(p.kind, Lookup(vals, n)).Some?
    decreases |ps|
  {
    if |ps| == 0 then []
    else
      var p := ps[|ps| - 1];
      assert forall q :: q in ps <==> q in ps[..|ps| - 1] || q == p;
      Filled(ps[..|ps| - 1], vals) + (if Rendered(p.kind, Lookup(vals, p.name)).Some? then [p.name] else [])
  }

  /** The template after each parameter with a rendered value has filled its first placeholder. */
  function FillAll(t: Template, ps: seq<Parameter>, vals: ParamMap): Template
    decreases |ps|
  {
    if |ps| == 0 then t
    else
      var p := ps[|ps| - 1];
      var prev := FillAll(t, ps[..|ps| - 1], vals);
      match Rendered(p.kind, Lookup(vals, p.name))
      case None => prev
      case Some(text) => Fill(prev, p.name, text)
  }

  /** Parameter names and rendered values that keep every `{` the opening of a placeholder token. */
  predicate BraceFreeInputs(ps: seq<Parameter>, vals: ParamMap) {
    forall p :: p in ps ==> BraceFree(p.name) && RendersWithoutBrace(p, vals)
  }

  predicate RendersWithoutBrace(p: Parameter, vals: ParamMap) {
    match Rendered(p.kind, Lookup(vals, p.name))
    case None => true
    case Some(text) => '{' !in text
  }

  /**
   * On a command held as a template, `formatCommand` fills placeholders:
   * the string it builds is the text of the filled template.
   */
  lemma {:induction false} FormatFillsTemplate(t: Template, ps: seq<Parameter>, vals: ParamMap)
    requires Searchable(t) && BraceFreeInputs(ps, vals)
    ensures Format(Text(t), ps, vals) == Text(FillAll(t, ps, vals))
    ensures Searchable(FillAll(t, ps, vals))
    decreases |ps|
  {
    if |ps| > 0 {
      var p := ps[|ps| - 1];
      assert p in ps;
      FormatFillsTemplate(t, ps[..|ps| - 1], vals);
      var prev := FillAll(t, ps[..|ps| - 1], vals);
      match Rendered(p.kind, Lookup(vals, p.name))
      case None =>
      case Some(text) =>
        ReplaceFirstFills(prev, p.name, text);
        FillSearchable(prev, p.name, text);
    }
  }

  /**
   * When the template's placeholders are distinct, exactly those whose
   * parameter was not substituted remain, in order.
   */
  lemma {:induction false} FillAllNames(t: Template, ps: seq<Parameter>, vals: ParamMap)
    requires Distinct(Names(t))
    ensures Names(FillAll(t, ps, vals)) == Drop(Names(t), Filled(ps, vals))
    decreases |ps|
  {
    if |ps| == 0 {
      DropNothing(Names(t), []);
    } else {
      var p := ps[|ps| - 1];
      var init := ps[..|ps| - 1];
      FillAllNames(t, init, vals);
      var prev := FillAll(t, init, vals);
      match Rendered(p.kind, Lookup(vals, p.name))
      case None =>
        assert Filled(ps, vals) == Filled(init, vals) + [] == Filled(init, vals);
      case Some(text) =>
        FillNames(prev, p.name, text);
        DropDistinct(Names(t), Filled(init, vals));
        RemoveFirstIsDrop(Names(prev), p.name);
        DropTwice(Names(t), Filled(init, vals), [p.name]);
    }
  }

  /**
   * On a template with distinct placeholders, the formatted command still
   * contains the token `{n}` exactly when the template has an `n`
   * placeholder and no parameter named `n` was substituted: a token stays
   * when its value is empty, when its parameter is a `file`, or when no
   * parameter declares it.
   */
  lemma FormatKeepsExactlyUnfilledTokens(t: Template, ps: seq<Parameter>, vals: ParamMap, n: string)
    requires Searchable(t) && Distinct(Names(t)) && BraceFreeInputs(ps, vals) && BraceFree(n)
    ensures Includes(Format(Text(t), ps, vals), Token(n)) <==> n in Names(t) && n !in Filled(ps, vals)
  {
    FormatFillsTemplate(t, ps, vals);
    FillAllNames(t, ps, vals);
    TokenInTextIff(FillAll(t, ps, vals), n);
  }

  /**
   * `formatCommand` substitutes nothing for a `file` parameter: a token whose
   * parameters are all `file` parameters stays in the command whatever the
   * values, and only such a token.
   */
  lemma FileTokenStays(t: Template, ps: seq<Parameter>, vals: ParamMap, n: string)
    requires Searchable(t) && Distinct(Names(t)) && BraceFreeInputs(ps, vals) && BraceFree(n)
    requires forall p :: p in ps && p.name == n ==> p.kind == FileKind
    ensures Includes(Format(Text(t), ps, vals), Token(n)) <==> n in Names(t)
  {
    FormatKeepsExactlyUnfilledTokens(t, ps, vals, n);
  }

  /** A command with no `{` at all, such as `arch-cli token mints`, is returned unchanged. */
  lemma {:induction false} FormatWithoutTokens(command: string, ps: seq<Parameter>, vals: ParamMap)
    requires '{' !in command
    ensures Format(command, ps, vals) == command
    decreases |ps|
  {
    if |ps| > 0 {
      FormatWithoutTokens(command, ps[..|ps| - 1], vals);
      var tok := Token(ps[|ps| - 1].name);
      forall j: nat ensures !MatchAt(command, tok, j) {
        if j < |command| {
          DiffersAt(command, tok, j, 0);
        }
      }
      ReplaceFirstNoMatch(command, tok, "");
    }
  }

  // ---------------------------------------------------------------------
  // validateParameters
  // ---------------------------------------------------------------------

  /** `Number(value)` for a value that is not empty; None stands for NaN. */
  function ToNumber(v: Value): (r: Option<int>)
    requires !IsEmpty(v)
    ensures v.Num? ==> r == Some(v.n)
    ensures v.Str? ==> r == ParseDecimal(v.s)
    ensures v == NaN ==> r == None
    ensures v.Bool? ==> r == Some(if v.b then 1 else 0)
  {
    match v
    case Str(s) => ParseDecimal(s)
    case Num(n) => Some(n)
    case NaN => None
    case Bool(b) => Some(if b then 1 else 0)
  }

  function MinOf(p: Parameter): Option<int> {
    if p.validation.Some? then p.validation.value.min else None
  }

  function MaxOf(p: Parameter): Option<int> {
    if p.validation.Some? then p.validation.value.max else None
  }

  /** The pattern when it is set and non-empty (`param.validation?.pattern` is truthy). */
  function PatternOf(p: Parameter): Option<string> {
    if p.validation.Some? && p.validation.value.pattern.Some? && p.validation.value.pattern.value != "" then
      p.validation.value.pattern
    else None
  }

  function RequiredMessage(name: string): string { name + " is required" }
  function NotANumberMessage(name: string): string { name + " must be a valid number" }
  function BelowMinMessage(name: string, min: int): string { name + " must be at least " + IntToDecimal(min) }
  function AboveMaxMessage(name: string, max: int): string { name + " must be at most " + IntToDecimal(max) }
  function FormatMessage(name: string): string { name + " format is invalid" }

  /**
   * The errors `validateParameters` reports for one parameter. `matches`
   * stands for `new RegExp(pattern).test(text)`.
   */
  function ParamErrors(p: Parameter, vals: ParamMap, matches: (string, string) -> bool): (errs: seq<string>)
    ensures |errs| <= 1
  {
    var value := Lookup(vals, p.name);
    if p.required && IsEmpty(value) then [RequiredMessage(p.name)]
    else if IsEmpty(value) then []
    else if p.kind == NumberKind then
      match ToNumber(value)
      case None => [NotANumberMessage(p.name)]
      case Some(x) =>
        if MinOf(p).Some? && x < MinOf(p).value then [BelowMinMessage(p.name, MinOf(p).value)]
        else if MaxOf(p).Some? && x > MaxOf(p).value then [AboveMaxMessage(p.name, MaxOf(p).value)]
        else []
    else if p.kind == StringKind && PatternOf(p).Some? then
      if matches(PatternOf(p).value, ValueText(value)) then [] else [FormatMessage(p.name)]
    else []
  }

  /** The errors for `ps`, in declaration order. */
  function Validate(ps: seq<Parameter>, vals: ParamMap, matches: (string, string) -> bool): seq<string>
    decreases |ps|
  {
    if |ps| == 0 then []
    else Validate(ps[..|ps| - 1], vals, matches) + ParamErrors(ps[|ps| - 1], vals, matches)
  }

  /**
   * `validateParameters(operation, parameters)`: one pass over the declared
   * parameters, pushing at most one error for each.
   */
  method ValidateParameters(op: Operation, vals: ParamMap, matches: (string, string) -> bool)
    returns (errors: seq<string>)
    ensures errors == Validate(op.parameters, vals, matches)
  {
    errors := [];
    for i := 0 to |op.parameters|
      invariant errors == Validate(op.parameters[..i], vals, matches)
    {
      assert op.parameters[..i + 1][..i] == op.parameters[..i];
      var param := op.parameters[i];
      var value := Lookup(vals, param.name);
      if param.required && IsEmpty(value) {
        errors := errors + [RequiredMessage(param.name)];
      } else if !IsEmpty(value) {
        if param.kind == NumberKind {
          var numValue := ToNumber(value);
          if numValue.None? {
            errors := errors + [NotANumberMessage(param.name)];
          } else if MinOf(param).Some? && numValue.value < MinOf(param).value {
            errors := errors + [BelowMinMessage(param.name, MinOf(param).value)];
          } else if MaxOf(param).Some? && numValue.value > MaxOf(param).value {
            errors := errors + [AboveMaxMessage(param.name, MaxOf(param).value)];
          }
        } else if param.kind == StringKind && PatternOf(param).Some? {
          if !matches(PatternOf(param).value, ValueText(value)) {
            errors := errors + [FormatMessage(param.name)];
          }
        }
      }
    }
    assert op.parameters[..|op.parameters|] == op.parameters;
  }

  /**
   * What a parameter's value must satisfy, stated without the order of the
   * checks: present when required; when present, a number inside its bounds
   * for a `number` parameter, and matching its pattern for a `string` one.
   */
  predicate Acceptable(p: Parameter, v: Value, matches: (string, string) -> bool) {
    (p.required ==> !IsEmpty(v)) &&
    (!IsEmpty(v) && p.kind == NumberKind ==>
      ToNumber(v).Some? &&
      (MinOf(p).Some? ==> ToNumber(v).value >= MinOf(p).value) &&
      (MaxOf(p).Some? ==> ToNumber(v).value <= MaxOf(p).value)) &&
    (!IsEmpty(v) && p.kind == StringKind && PatternOf(p).Some? ==> matches(PatternOf(p).value, ValueText(v)))
  }

  /** A parameter gets no error exactly when its value is acceptable. */
  lemma ParamErrorsEmptyIff(p: Parameter, vals: ParamMap, matches: (string, string) -> bool)
    ensures ParamErrors(p, vals, matches) == [] <==> Acceptable(p, Lookup(vals, p.name), matches)
  {
  }

  /** A required parameter with no value gets the one error `<name> is required` and nothing else. */
  lemma RequiredMissing(p: Parameter, vals: ParamMap, matches: (string, string) -> bool)
    requires p.required && IsEmpty(Lookup(vals, p.name))
    ensures ParamErrors(p, vals, matches) == [p.name + " is required"]
  {
  }

  /** An optional parameter with no value gets no error, whatever its type and validation. */
  lemma OptionalMissing(p: Parameter, vals: ParamMap, matches: (string, string) -> bool)
    requires !p.required && IsEmpty(Lookup(vals, p.name))
    ensures ParamErrors(p, vals, matches) == []
  {
  }

  /**
   * The checks on a present `number` value form an else-chain: not a
   * number, else below the minimum, else above the maximum, else no error.
   */
  lemma NumberChecks(p: Parameter, vals: ParamMap, matches: (string, string) -> bool)
    requires p.kind == NumberKind && !IsEmpty(Lookup(vals, p.name))
    ensures var x := ToNumber(Lookup(vals, p.name));
      ParamErrors(p, vals, matches) ==
        if x.None? then [p.name + " must be a valid number"]
        else if MinOf(p).Some? && x.value < MinOf(p).value then
          [p.name + " must be at least " + IntToDecimal(MinOf(p).value)]
        else if MaxOf(p).Some? && x.value > MaxOf(p).value then
          [p.name + " must be at most " + IntToDecimal(MaxOf(p).value)]
        else []
  {
  }

  /** A present value inside both declared bounds gets no error. */
  lemma NumberInRange(p: Parameter, vals: ParamMap, matches: (string, string) -> bool)
    requires p.kind == NumberKind && !IsEmpty(Lookup(vals, p.name))
    requires ToNumber(Lookup(vals, p.name)).Some?
    requires MinOf(p).Some? ==> ToNumber(Lookup(vals, p.name)).value >= MinOf(p).value
    requires MaxOf(p).Some? ==> ToNumber(Lookup(vals, p.name)).value <= MaxOf(p).value
    ensures ParamErrors(p, vals, matches) == []
  {
  }

  /** Only `string` parameters are checked against a pattern; a mismatch gives `<name> format is invalid`. */
  lemma PatternCheck(p: Parameter, vals: ParamMap, matches: (string, string) -> bool)
    requires p.kind == StringKind && !IsEmpty(Lookup(vals, p.name))
    ensures ParamErrors(p, vals, matches) ==
      if PatternOf(p).Some? && !matches(PatternOf(p).value, ValueText(Lookup(vals, p.name))) then
        [p.name + " format is invalid"]
      else []
  {
  }

  /** `boolean` and `file` parameters get no error beyond the required check. */
  lemma BooleanAndFileOnlyRequired(p: Parameter, vals: ParamMap, matches: (string, string) -> bool)
    requires p.kind == BooleanKind || p.kind == FileKind
    ensures ParamErrors(p, vals, matches) ==
      if p.required && IsEmpty(Lookup(vals, p.name)) then [p.name + " is required"] else []
  {
  }

  /** The errors of a concatenation are the errors of its parts, in order. */
  lemma {:induction false} ValidateConcat(a: seq<Parameter>, b: seq<Parameter>, vals: ParamMap, matches: (string, string) -> bool)
    ensures Validate(a + b, vals, matches) == Validate(a, vals, matches) + Validate(b, vals, matches)
    decreases |b|
  {
    if |b| == 0 {
      assert a + b == a;
    } else {
      var init, last := b[..|b| - 1], b[|b| - 1];
      assert (a + b)[..|a + b| - 1] == a + init;
      assert (a + b)[|a + b| - 1] == last;
      ValidateConcat(a, init, vals, matches);
      var e := ParamErrors(last, vals, matches);
      assert Validate(a + b, vals, matches) == Validate(a + init, vals, matches) + e;
      assert Validate(b, vals, matches) == Validate(init, vals, matches) + e;
    }
  }

  /** At most one error per parameter. */
  lemma {:induction false} ValidateLength(ps: seq<Parameter>, vals: ParamMap, matches: (string, string) -> bool)
    ensures |Validate(ps, vals, matches)| <= |ps|
    decreases |ps|
  {
    if |ps| > 0 {
      ValidateLength(ps[..|ps| - 1], vals, matches);
    }
  }

  /** No error at all exactly when every parameter's value is acceptable. */
  lemma {:induction false} ValidateEmptyIff(ps: seq<Parameter>, vals: ParamMap, matches: (string, string) -> bool)
    ensures Validate(ps, vals, matches) == [] <==>
      forall i :: 0 <= i < |ps| ==> Acceptable(ps[i], Lookup(vals, ps[i].name), matches)
    decreases |ps|
  {
    if |ps| > 0 {
      var init := ps[..|ps| - 1];
      ValidateEmptyIff(init, vals, matches);
      ParamErrorsEmptyIff(ps[|ps| - 1], vals, matches);
      assert forall i :: 0 <= i < |init| ==> init[i] == ps[i];
    }
  }

  // ---------------------------------------------------------------------
  // getKeypairPath and truncateText
  // ---------------------------------------------------------------------

  /** The `-keypair.json` file name of a keypair. */
  function KeypairFile(keypairName: string): string {
    keypairName + "-keypair.json"
  }

  /**
   * `getKeypairPath(keypairName, projectDirectory)`: inside the project
   * directory when one is given and non-empty, else relative to `.`.
   */
  function GetKeypairPath(keypairName: string, projectDirectory: Option<string>): (path: string)
    ensures |path| > |KeypairFile(keypairName)| + 1
    ensures path[|path| - |KeypairFile(keypairName)|..] == KeypairFile(keypairName)
    ensures path[|path| - |KeypairFile(keypairName)| - 1] == '/'
  {
    var dir := if projectDirectory.Some? && projectDirectory.value != "" then projectDirectory.value else ".";
    dir + "/" + KeypairFile(keypairName)
  }

  /** The directory part of a keypair path is the project directory, or `.` without one. */
  lemma KeypairPathDirectory(keypairName: string, projectDirectory: Option<string>)
    ensures var path := GetKeypairPath(keypairName, projectDirectory);
      path[..|path| - |KeypairFile(keypairName)| - 1] ==
        if projectDirectory.Some? && projectDirectory.value != "" then projectDirectory.value else "."
  {
  }

  /** For one directory, different keypair names give different paths. */
  lemma KeypairPathInjective(a: string, b: string, projectDirectory: Option<string>)
    requires GetKeypairPath(a, projectDirectory) == GetKeypairPath(b, projectDirectory)
    ensures a == b
  {
    var dir := if projectDirectory.Some? && projectDirectory.value != "" then projectDirectory.value else ".";
    var pa := GetKeypairPath(a, projectDirectory);
    assert pa == dir + "/" + a + "-keypair.json";
    assert pa[|dir| + 1..|pa| - 13] == a;
    assert pa[|dir| + 1..|pa| - 13] == b;
  }

  /**
   * `truncateText(text, maxLength)`: the text when it fits, else its first
   * `maxLength` characters (none for a negative length, as `substring`
   * clamps) followed by `...`.
   */
  function TruncateText(text: string, maxLength: int): (r: string)
    ensures |text| <= maxLength ==> r == text
    ensures |text| > maxLength ==> |r| == (if maxLength < 0 then 0 else maxLength) + 3
    ensures |text| > maxLength ==> r[..|r| - 3] == text[..|r| - 3] && r[|r| - 3..] == "..."
  {
    if |text| <= maxLength then text
    else text[..if maxLength < 0 then 0 else maxLength] + "..."
  }

  /** Truncating twice at the same length is truncating once. */
  lemma TruncateIdempotent(text: string, maxLength: int)
    ensures TruncateText(TruncateText(text, maxLength), maxLength) == TruncateText(text, maxLength)
  {
    var r := TruncateText(text, maxLength);
    if |text| > maxLength {
      var m := if maxLength < 0 then 0 else maxLength;
      assert r[..m] == text[..m];
    }
  }
}
