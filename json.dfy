/** Values decoded from JSON, standing for the `Dict[str, Any]` payloads the services pass around. */
module Json {
  import opened Wrappers
  import opened OrderedMaps

  datatype Json =
    | JNull
    | JBool(b: bool)
    | JInt(i: int)
    | JReal(r: real)
    | JStr(s: string)
    | JArr(items: seq<Json>)
    | JObj(fields: Dict<string, Json>)

  type Object = Dict<string, Json>

  /** Python truthiness of a decoded value. */
  predicate Truthy(j: Json) {
    match j
    case JNull => false
    case JBool(b) => b
    case JInt(i) => i != 0
    case JReal(r) => r != 0.0
    case JStr(s) => s != []
    case JArr(items) => items != []
    case JObj(fields) => fields != []
  }

  /** `d.get(k, default)`. */
  function GetOr(d: Object, k: string, default: Json): (r: Json)
    ensures !HasKey(d, k) ==> r == default
    ensures HasKey(d, k) ==> Get(d, k) == Some(r)
  {
    match Get(d, k)
    case None => default
    case Some(v) => v
  }

  /** `{**d, **overrides}`: every key of `overrides` takes its value there, in the order of dict merging. */
  function Merge(d: Object, overrides: Object): Object
    decreases |overrides|
  {
    if overrides == [] then d
    else Merge(Put(d, overrides[0].0, overrides[0].1), overrides[1..])
  }

  lemma {:induction false} MergeDistinct(d: Object, overrides: Object)
    requires DistinctKeys(d)
    ensures DistinctKeys(Merge(d, overrides))
    decreases |overrides|
  {
    if overrides != [] {
      PutGet(d, overrides[0].0, overrides[0].1, overrides[0].0);
      MergeDistinct(Put(d, overrides[0].0, overrides[0].1), overrides[1..]);
    }
  }

  /** How Python prints a value with `str()` and `repr()`; supplied by the caller. */
  datatype Printer = Printer(str: Json -> string, repr: Json -> string)

  /** `f"{value}"`: a string prints as itself. */
  function Str(printer: Printer, j: Json): (r: string)
    ensures j.JStr? ==> r == j.s
  {
    if j.JStr? then j.s else printer.str(j)
  }

  /** The Python type name of a decoded value, as exception messages print it. */
  function TypeName(j: Json): string {
    match j
    case JNull => "NoneType"
    case JBool(_) => "bool"
    case JInt(_) => "int"
    case JReal(_) => "float"
    case JStr(_) => "str"
    case JArr(_) => "list"
    case JObj(_) => "dict"
  }

  /**
   * What `for x in value` iterates over: list items, dict keys, one-character
   * strings; any other value raises `TypeError`.
   */
  function Iterated(j: Json): (r: Result<seq<Json>>)
    ensures r.Err? <==> !(j.JArr? || j.JObj? || j.JStr?)
    ensures j.JArr? ==> r == Ok(j.items)
    ensures j.JStr? ==> r.Ok? && |r.value| == |j.s| && forall k :: 0 <= k < |j.s| ==> r.value[k] == JStr([j.s[k]])
    ensures j.JObj? ==> r.Ok? && |r.value| == |j.fields| && forall k :: 0 <= k < |j.fields| ==> r.value[k] == JStr(j.fields[k].0)
    ensures r.Ok? ==> (r.value == [] <==> !Truthy(j))
  {
    match j
    case JArr(items) => Ok(items)
    case JObj(fields) => Ok(seq(|fields|, k requires 0 <= k < |fields| => JStr(fields[k].0)))
    case JStr(s) => Ok(seq(|s|, k requires 0 <= k < |s| => JStr([s[k]])))
    case _ => Err("'" + TypeName(j) + "' object is not iterable")
  }

  /** Whether a decoded value can be a dict key: lists and dicts are unhashable. */
  predicate Hashable(j: Json) {
    !j.JArr? && !j.JObj?
  }

  /** The `TypeError` a dict lookup with an unhashable key raises. */
  function Unhashable(j: Json): string {
    "unhashable type: '" + TypeName(j) + "'"
  }

  /** After a merge a key takes its value from the overrides when they have it, else from the base. */
  lemma {:induction false} MergeGet(d: Object, overrides: Object, k: string)
    requires DistinctKeys(d) && DistinctKeys(overrides)
    ensures Get(Merge(d, overrides), k) == if HasKey(overrides, k) then Get(overrides, k) else Get(d, k)
    decreases |overrides|
  {
    if overrides != [] {
      var k0 := overrides[0].0;
      var v0 := overrides[0].1;
      var rest := overrides[1..];
      assert DistinctKeys(rest) by {
        forall i, j | 0 <= i < j < |rest| ensures rest[i].0 != rest[j].0 {
          assert rest[i] == overrides[i + 1] && rest[j] == overrides[j + 1];
        }
      }
      PutGet(d, k0, v0, k);
      MergeGet(Put(d, k0, v0), rest, k);
      if k == k0 {
        GetAt(overrides, 0);
        assert !HasKey(rest, k) by {
          forall i | 0 <= i < |rest| ensures rest[i].0 != k {
            assert rest[i] == overrides[i + 1];
          }
        }
      } else {
        GetTail(overrides, k);
      }
    }
  }
}
