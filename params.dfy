/**
 * The service-description objects the CLI and man-page generators read:
 * parameters with their type tree, operations, and the insertion-ordered
 * dictionaries (`dict`) the generators iterate over.
 *
 * A parameter's `type` attribute is determined by its shape: `list`, `map`
 * and `structure` carry their member parameters; every other type name is a
 * leaf. The six scalar type names have a constructor each; any other leaf
 * type (`blob`, `long`, ...) keeps its name.
 */
module Params {
  import opened Wrappers
  import opened Text

  /** The module-level `ScalarTypes` tuple of bcdoc/mangen.py. */
  const ScalarTypes: seq<string> := ["string", "integer", "boolean", "timestamp", "float", "double"]

  /** The type names a leaf of another kind cannot have. */
  const ReservedTypes: seq<string> := ScalarTypes + ["list", "map", "structure"]

  type OtherTypeName = t: string | t !in ReservedTypes witness "blob"

  datatype LeafType =
    | StringType | IntegerType | BooleanType | TimestampType | FloatType | DoubleType
    | OtherType(name: OtherTypeName)

  datatype Shape =
    | Leaf(leafType: LeafType)
    | ListOf(member: Param)
    | MapOf(key: Param, member: Param)
    | StructureOf(fields: seq<Param>)

  datatype Param = Param(
    name: string,
    cliName: string,
    pyName: string,
    required: bool,
    documentation: string,
    enumValues: Option<seq<string>>,
    falseName: Option<string>,
    shape: Shape)

  function LeafName(t: LeafType): string {
    match t
    case StringType => "string"
    case IntegerType => "integer"
    case BooleanType => "boolean"
    case TimestampType => "timestamp"
    case FloatType => "float"
    case DoubleType => "double"
    case OtherType(name) => name
  }

  /** `param.type`. */
  function TypeName(p: Param): string {
    match p.shape
    case Leaf(t) => LeafName(t)
    case ListOf(_) => "list"
    case MapOf(_, _) => "map"
    case StructureOf(_) => "structure"
  }

  /** `param.type in ScalarTypes`. */
  predicate IsScalar(p: Param) {
    p.shape.Leaf? && !p.shape.leafType.OtherType?
  }

  /** Distinct shapes have distinct type names, so a type name tells the shape's kind. */
  lemma TypeNameKind(p: Param)
    ensures TypeName(p) == "list" <==> p.shape.ListOf?
    ensures TypeName(p) == "map" <==> p.shape.MapOf?
    ensures TypeName(p) == "structure" <==> p.shape.StructureOf?
    ensures TypeName(p) == "string" <==> p.shape == Leaf(StringType)
    ensures TypeName(p) == "boolean" <==> p.shape == Leaf(BooleanType)
  {
    if p.shape.Leaf? && p.shape.leafType.OtherType? {
      var n := p.shape.leafType.name;
      assert ReservedTypes[6] == "list" && ReservedTypes[7] == "map" && ReservedTypes[8] == "structure";
      assert ReservedTypes[0] == "string" && ReservedTypes[2] == "boolean";
    }
  }

  /** A parameter is scalar exactly when its type name is one of `ScalarTypes`. */
  lemma ScalarByName(p: Param)
    ensures IsScalar(p) <==> TypeName(p) in ScalarTypes
  {
    if p.shape.Leaf? && p.shape.leafType.OtherType? {
      assert forall i :: 0 <= i < |ScalarTypes| ==> ReservedTypes[i] == ScalarTypes[i];
    }
  }

  /** A service operation as the generators see it; `params` keeps the description's order. */
  datatype Operation = Operation(
    name: string,
    cliName: string,
    documentation: string,
    params: seq<Param>,
    streaming: bool,
    filters: Option<Dict<Filter>>)

  /** An entry of an operation's `filters`; each key of the source's dictionary is optional. */
  datatype Filter = Filter(documentation: Option<string>, choices: Option<seq<string>>)

  /** A service as the man-page generator sees it. */
  datatype Service = Service(
    cliName: string,
    fullName: string,
    documentation: string,
    operations: seq<Operation>)

  /** A Python `dict`: its entries in insertion order, each key once. */
  type Dict<V> = seq<(string, V)>

  predicate DistinctKeys<V>(d: Dict<V>) {
    forall i, j :: 0 <= i < j < |d| ==> d[i].0 != d[j].0
  }

  /** `list(d)`: the keys in insertion order. */
  function Keys<V>(d: Dict<V>): (ks: seq<string>)
    ensures |ks| == |d| && forall i :: 0 <= i < |d| ==> ks[i] == d[i].0
  {
    seq(|d|, i requires 0 <= i < |d| => d[i].0)
  }

  /** `d[key]` for a key of `d`: the value of its first entry with that key. */
  function Lookup<V>(d: Dict<V>, key: string): V
    requires key in Keys(d)
  {
    if d[0].0 == key then d[0].1
    else
      assert Keys(d) == [d[0].0] + Keys(d[1..]);
      Lookup(d[1..], key)
  }
}
