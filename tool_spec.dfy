/**
 * The tool factory's data model: a generation request with its field
 * constraints, and the specification of a generated tool with its Python
 * signature and its serialised form.
 */
module ToolSpecs {
  import opened Wrappers
  import opened OrderedMaps
  import opened Strings
  import opened Json

  // ---------------------------------------------------------------------------
  // Requests

  datatype ToolGenerateRequest = ToolGenerateRequest(
    name: string,
    description: string,
    parameters: Dict<string, Object>,
    returnType: string,
    examples: seq<Object>)

  predicate IsLowerOrUnderscore(c: char) { 'a' <= c <= 'z' || c == '_' }

  /** A tool name matches `^[a-z_][a-z0-9_]*$`. */
  predicate ValidToolName(name: string) {
    && |name| >= 1
    && IsLowerOrUnderscore(name[0])
    && forall i :: 1 <= i < |name| ==> IsLowerOrUnderscore(name[i]) || IsDigit(name[i])
  }

  /** Field validation of a request: the name pattern, and a description of at least 10 characters. */
  function NewRequest(name: string, description: string, parameters: Dict<string, Object> := [],
                      returnType: string := "Any", examples: seq<Object> := []): (r: Result<ToolGenerateRequest>)
    ensures r.Ok? <==> ValidToolName(name) && |description| >= 10
    ensures r.Ok? ==> r.value == ToolGenerateRequest(name, description, parameters, returnType, examples)
  {
    if !ValidToolName(name) then Err("name: String should match pattern '^[a-z_][a-z0-9_]*$'")
    else if |description| < 10 then Err("description: String should have at least 10 characters")
    else Ok(ToolGenerateRequest(name, description, parameters, returnType, examples))
  }

  /** Snake case passes; capitals, dashes, punctuation, a leading digit or an empty name do not. */
  lemma ToolNameExamples()
    ensures ValidToolName("calculate_sum") && ValidToolName("_private2")
    ensures !ValidToolName("Invalid-Name!") && !ValidToolName("2fast") && !ValidToolName("")
    ensures NewRequest("invalid_name_test", "Test").Err?
  {
    assert "Invalid-Name!"[0] == 'I';
    assert "2fast"[0] == '2';
  }

  // ---------------------------------------------------------------------------
  // Tool specifications

  /** A generated tool; the two timestamps are their ISO texts. */
  datatype ToolSpec = ToolSpec(
    name: string,
    description: string,
    parameters: Dict<string, Object>,
    returnType: string,
    code: string,
    examples: seq<Object>,
    successRate: real,
    usageCount: int,
    version: int,
    createdAt: string,
    lastUsed: Option<string>)

  /** The dataclass constructor with its defaults. */
  function NewToolSpec(name: string, description: string, parameters: Dict<string, Object>, returnType: string,
                       code: string, examples: seq<Object>, createdAt: string): (s: ToolSpec)
    ensures s.successRate == 0.0 && s.usageCount == 0 && s.version == 1 && s.lastUsed.None?
    ensures (s.name, s.description, s.parameters, s.returnType, s.code, s.examples, s.createdAt)
         == (name, description, parameters, returnType, code, examples, createdAt)
  {
    ToolSpec(name, description, parameters, returnType, code, examples, 0.0, 0, 1, createdAt, None)
  }

  /** One parameter of the signature: `n: T = repr(d)` with a default that is not `None`, else `n: T`. */
  function ParamText(printer: Printer, name: string, spec: Object): (t: string)
    ensures var ty := Str(printer, GetOr(spec, "type", JStr("Any")));
      var d := GetOr(spec, "default", JNull);
      t == name + ": " + ty + (if d != JNull then " = " + printer.repr(d) else "")
  {
    var ty := Str(printer, GetOr(spec, "type", JStr("Any")));
    var d := GetOr(spec, "default", JNull);
    if d != JNull then name + ": " + ty + " = " + printer.repr(d) else name + ": " + ty
  }

  /** The rendered parameters, in the order of the parameter map. */
  function ParamTexts(printer: Printer, parameters: Dict<string, Object>): (ts: seq<string>)
    ensures |ts| == |parameters|
    ensures forall i :: 0 <= i < |parameters| ==> ts[i] == ParamText(printer, parameters[i].0, parameters[i].1)
  {
    seq(|parameters|, i requires 0 <= i < |parameters| => ParamText(printer, parameters[i].0, parameters[i].1))
  }

  /** `def <name>(<parameters joined by ", ">) -> <return type>:`. */
  function Signature(printer: Printer, spec: ToolSpec): string {
    "def " + spec.name + "(" + Join(ParamTexts(printer, spec.parameters), ", ") + ") -> " + spec.returnType + ":"
  }

  /** `get_signature`: render each parameter in turn, then join them. */
  method GetSignature(spec: ToolSpec, printer: Printer) returns (signature: string)
    ensures signature == Signature(printer, spec)
  {
    var params: seq<string> := [];
    var i := 0;
    while i < |spec.parameters|
      invariant 0 <= i <= |spec.parameters|
      invariant params == ParamTexts(printer, spec.parameters[..i])
    {
      var (name, paramSpec) := spec.parameters[i];
      params := params + [ParamText(printer, name, paramSpec)];
      i := i + 1;
    }
    assert spec.parameters[..i] == spec.parameters;
    signature := "def " + spec.name + "(" + Join(params, ", ") + ") -> " + spec.returnType + ":";
  }

  /**
   * The signature opens with `def <name>(` and closes with `) -> <return type>:`;
   * a tool with no parameters has `()`, and a single parameter without type
   * or default is typed `Any`.
   */
  lemma SignatureShape(printer: Printer, spec: ToolSpec)
    ensures StartsWith(Signature(printer, spec), "def " + spec.name + "(")
    ensures spec.parameters == [] ==> Signature(printer, spec) == "def " + spec.name + "() -> " + spec.returnType + ":"
    ensures spec.parameters != [] && spec.parameters[1..] == [] && spec.parameters[0].1 == [] ==>
      Signature(printer, spec) == "def " + spec.name + "(" + spec.parameters[0].0 + ": Any) -> " + spec.returnType + ":"
  {
    var texts := ParamTexts(printer, spec.parameters);
    var head := "def " + spec.name + "(";
    assert Signature(printer, spec) == head + (Join(texts, ", ") + ") -> " + spec.returnType + ":");
    assert Signature(printer, spec)[..|head|] == head;
    if spec.parameters == [] {
      assert Join(texts, ", ") == "";
    } else if spec.parameters[1..] == [] && spec.parameters[0].1 == [] {
      BareSignature(printer, spec);
    }
  }

  lemma BareSignature(printer: Printer, spec: ToolSpec)
    requires spec.parameters != [] && spec.parameters[1..] == [] && spec.parameters[0].1 == []
    ensures Signature(printer, spec) == "def " + spec.name + "(" + spec.parameters[0].0 + ": Any) -> " + spec.returnType + ":"
  {
    var name := spec.parameters[0].0;
    BareParam(printer, name);
    assert Join(ParamTexts(printer, spec.parameters), ", ") == name + ": Any";
    assert ": Any" + ") -> " == ": Any) -> ";
  }

  /** A parameter with neither a type nor a default renders as `<name>: Any`. */
  lemma BareParam(printer: Printer, name: string)
    ensures ParamText(printer, name, []) == name + ": Any"
  {
    var none: Object := [];
    assert !HasKey(none, "type") && !HasKey(none, "default");
  }

  function ObjectsJson(xs: seq<Object>): (j: Json)
    ensures j.JArr? && |j.items| == |xs| && forall i :: 0 <= i < |xs| ==> j.items[i] == JObj(xs[i])
  {
    JArr(seq(|xs|, i requires 0 <= i < |xs| => JObj(xs[i])))
  }

  function ParamsJson(parameters: Dict<string, Object>): (j: Json)
    ensures j.JObj? && |j.fields| == |parameters|
    ensures forall i :: 0 <= i < |parameters| ==> j.fields[i] == (parameters[i].0, JObj(parameters[i].1))
  {
    JObj(seq(|parameters|, i requires 0 <= i < |parameters| => (parameters[i].0, JObj(parameters[i].1))))
  }

  const SpecFields := ["name", "description", "parameters", "return_type", "code", "examples",
                       "success_rate", "usage_count", "version", "created_at", "last_used"]

  /** `to_dict`: all eleven fields, with an unset `last_used` as `None`. */
  function ToDict(spec: ToolSpec): Object {
    [("name", JStr(spec.name)),
     ("description", JStr(spec.description)),
     ("parameters", ParamsJson(spec.parameters)),
     ("return_type", JStr(spec.returnType)),
     ("code", JStr(spec.code)),
     ("examples", ObjectsJson(spec.examples)),
     ("success_rate", JReal(spec.successRate)),
     ("usage_count", JInt(spec.usageCount)),
     ("version", JInt(spec.version)),
     ("created_at", JStr(spec.createdAt)),
     ("last_used", if spec.lastUsed.Some? then JStr(spec.lastUsed.value) else JNull)]
  }

  /** The serialised form has exactly the eleven fields, in declaration order. */
  lemma ToDictFields(spec: ToolSpec)
    ensures Keys(ToDict(spec)) == SpecFields
  {
  }

  /** An unset `last_used` is serialised as `None`, a set one as its ISO text. */
  lemma ToDictLastUsed(spec: ToolSpec)
    ensures Get(ToDict(spec), "last_used") == Some(if spec.lastUsed.Some? then JStr(spec.lastUsed.value) else JNull)
  {
    GetFirst(ToDict(spec), 10);
  }
}
