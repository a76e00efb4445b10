/** The item classes of the oldest revision (src/codegen/models.py): only
    constructors that set defaults and the `get_type` tag of each class.
    The fields are read by the oldest `Parser`, which assigns the
    description without checking its type, so here it is any value. */
module ModelsV1 {
  import opened Outcomes
  import opened Yaml
  import opened ItemTypes

  /** A schema item: the common fields and the fields of its class. */
  datatype Item = Item(name: string, description: Value, kind: Kind)

  /** One case per class: `ModelItem` itself, then its six subclasses. */
  datatype Kind =
    | BaseKind
    | IntKind(intType: IntType)
    | NumberKind(numberType: NumberType)
    | BoolKind
    | StringKind(enumList: Option<seq<string>>)
    | ArrayKind(itemType: Option<Item>, arrayType: ArrayType)
    | ObjectKind(properties: seq<Item>, required: seq<Item>)

  /** `get_type` of each class. */
  function GetType(kind: Kind): ModelItemType {
    match kind
    case BaseKind => ItemT
    case IntKind(_) => IntT
    case NumberKind(_) => NumberT
    case BoolKind => BoolT
    case StringKind(_) => StringT
    case ArrayKind(_, _) => ArrayT
    case ObjectKind(_, _) => ObjectT
  }

  /** The class fields each constructor sets. */
  function DefaultKind(t: ModelItemType): (kind: Kind)
    ensures GetType(kind) == t
    ensures kind.IntKind? ==> kind.intType == Int32
    ensures kind.NumberKind? ==> kind.numberType == Float
    ensures kind.StringKind? ==> kind.enumList.None?
    ensures kind.ArrayKind? ==> kind.itemType.None? && kind.arrayType == Array
    ensures kind.ObjectKind? ==> kind.properties == [] && kind.required == []
  {
    match t
    case ItemT => BaseKind
    case IntT => IntKind(Int32)
    case NumberT => NumberKind(Float)
    case BoolT => BoolKind
    case StringT => StringKind(None)
    case ArrayT => ArrayKind(None, Array)
    case ObjectT => ObjectKind([], [])
  }

  /** The constructor of the class for tag `t`: the given name, an empty
      description, the class's defaults. */
  function NewItem(name: string, t: ModelItemType): (item: Item)
    ensures item.name == name && item.description == Str("")
    ensures GetType(item.kind) == t && item.kind == DefaultKind(t)
  {
    Item(name, Str(""), DefaultKind(t))
  }
}
