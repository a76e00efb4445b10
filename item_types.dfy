/** The closed value sets every revision declares identically as Python
    `Enum`s: the item type tags (`ModelItemType`), the integer formats
    (`ModelInt.IntType`), the number formats (`ModelNumber.NumberType`) and
    the array kinds (`ModelArray.ArrayType`). Each table lists
    (value string, member) in declaration order, the order in which Python
    iterates an Enum. */
module ItemTypes {

  datatype ModelItemType = ItemT | IntT | NumberT | BoolT | StringT | ArrayT | ObjectT

  datatype IntType = Uint32 | Uint64 | Int32 | Int64

  datatype NumberType = Float | Double

  datatype ArrayType = Array | Set

  const ModelItemTypes: seq<(string, ModelItemType)> :=
    [("item", ItemT), ("int", IntT), ("number", NumberT), ("bool", BoolT),
     ("string", StringT), ("array", ArrayT), ("object", ObjectT)]

  const IntTypes: seq<(string, IntType)> :=
    [("uint32", Uint32), ("uint64", Uint64), ("int32", Int32), ("int64", Int64)]

  const NumberTypes: seq<(string, NumberType)> :=
    [("float", Float), ("double", Double)]

  const ArrayTypes: seq<(string, ArrayType)> :=
    [("array", Array), ("set", Set)]

  /** `t.value`: the string a document uses for the tag. */
  function TypeName(t: ModelItemType): string {
    match t
    case ItemT => "item"
    case IntT => "int"
    case NumberT => "number"
    case BoolT => "bool"
    case StringT => "string"
    case ArrayT => "array"
    case ObjectT => "object"
  }

  /** `str(t)`, as Python renders an Enum member: class name, dot, member name. */
  function TypeRepr(t: ModelItemType): string {
    match t
    case ItemT => "ModelItemType.Item"
    case IntT => "ModelItemType.Int"
    case NumberT => "ModelItemType.Number"
    case BoolT => "ModelItemType.Bool"
    case StringT => "ModelItemType.String"
    case ArrayT => "ModelItemType.Array"
    case ObjectT => "ModelItemType.Object"
  }

  /** The message of the RuntimeError the item factory raises for a tag
      without a class. */
  function UnknownTypeMsg(t: ModelItemType): string {
    "unknown type object " + TypeRepr(t)
  }

  function IntTypeName(t: IntType): string {
    match t
    case Uint32 => "uint32"
    case Uint64 => "uint64"
    case Int32 => "int32"
    case Int64 => "int64"
  }

  function NumberTypeName(t: NumberType): string {
    match t
    case Float => "float"
    case Double => "double"
  }

  function ArrayTypeName(t: ArrayType): string {
    match t
    case Array => "array"
    case Set => "set"
  }

  /** Each table pairs every member with its own value string. */
  lemma TablesMatchNames()
    ensures forall i :: 0 <= i < |ModelItemTypes| ==> TypeName(ModelItemTypes[i].1) == ModelItemTypes[i].0
    ensures forall i :: 0 <= i < |IntTypes| ==> IntTypeName(IntTypes[i].1) == IntTypes[i].0
    ensures forall i :: 0 <= i < |NumberTypes| ==> NumberTypeName(NumberTypes[i].1) == NumberTypes[i].0
    ensures forall i :: 0 <= i < |ArrayTypes| ==> ArrayTypeName(ArrayTypes[i].1) == ArrayTypes[i].0
  {
  }

  /** No value string occurs twice in a table, so a lookup by value string
      finds at most one member. */
  predicate DistinctNames<T>(table: seq<(string, T)>) {
    forall i, j :: 0 <= i < j < |table| ==> table[i].0 != table[j].0
  }

  lemma TablesDistinct()
    ensures DistinctNames(ModelItemTypes) && DistinctNames(IntTypes)
    ensures DistinctNames(NumberTypes) && DistinctNames(ArrayTypes)
  {
  }

  /** Where each member sits in its table. */
  function TypeIndex(t: ModelItemType): (i: nat)
    ensures i < |ModelItemTypes| && ModelItemTypes[i] == (TypeName(t), t)
  {
    match t
    case ItemT => 0
    case IntT => 1
    case NumberT => 2
    case BoolT => 3
    case StringT => 4
    case ArrayT => 5
    case ObjectT => 6
  }

  function IntTypeIndex(t: IntType): (i: nat)
    ensures i < |IntTypes| && IntTypes[i] == (IntTypeName(t), t)
  {
    match t
    case Uint32 => 0
    case Uint64 => 1
    case Int32 => 2
    case Int64 => 3
  }

  function NumberTypeIndex(t: NumberType): (i: nat)
    ensures i < |NumberTypes| && NumberTypes[i] == (NumberTypeName(t), t)
  {
    match t
    case Float => 0
    case Double => 1
  }

  function ArrayTypeIndex(t: ArrayType): (i: nat)
    ensures i < |ArrayTypes| && ArrayTypes[i] == (ArrayTypeName(t), t)
  {
    match t
    case Array => 0
    case Set => 1
  }
}
