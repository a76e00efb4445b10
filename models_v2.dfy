/** The schema item model of the middle revision (codegen/models.py).

    As in the newest revision, items are values: an `Item` holds the fields
    every `ModelItem` has and a `Kind` holding those of its subclass, and
    `parse` takes a freshly created item and the raw mapping and yields the
    item as its fields stand afterwards, or the first error raised.

    In this revision `ModelArray.parse` and `ModelObject.parse` stop after
    the common fields, so arrays and objects accept only `type` and
    `description`. Messages carry the item's name in their text and, except
    for the enum lookup, an empty context. */
module ModelsV2 {
  import opened Outcomes
  import opened Yaml
  import opened ItemTypes
  import Dict
  import Utils
  import opened TypeField

  const DescriptionKey: string := "description"
  const FormatKey: string := "format"
  const EnumKey: string := "enum"

  function UnknownFieldPrefix(name: string): string {
    name + " has unknown field '"
  }

  function UnknownFieldMsg(name: string, key: string): string {
    UnknownFieldPrefix(name) + key + "'"
  }

  /** The message is one raised by the allowed-field check of item `name`. */
  predicate IsUnknownFieldMsg(name: string, msg: string) {
    |UnknownFieldPrefix(name)| < |msg| && msg[..|UnknownFieldPrefix(name)|] == UnknownFieldPrefix(name)
    && msg[|msg| - 1] == '\''
  }

  function DescriptionMsg(name: string): string {
    name + " description must be a string"
  }

  function EmptyEnumMsg(name: string): string {
    "empty enum in item " + name
  }

  /** The triple-quoted template spans two lines; the second is indented by
      nine spaces. */
  function EnumListMsg(name: string): string {
    "invalid enum in " + name + ",\n         must be a list of strings"
  }

  /** A schema item: the common fields and the fields of its class. */
  datatype Item = Item(name: string, description: string, kind: Kind)

  /** One case per class: `ModelItem` itself, then its six subclasses. The
      array element type and the object's properties and required items
      keep their defaults, since no `parse` of this revision sets them. */
  datatype Kind =
    | BaseKind
    | IntKind(intType: IntType)
    | NumberKind(numberType: NumberType)
    | BoolKind
    | StringKind(enumList: Option<seq<string>>)
    | ArrayKind(itemType: Option<Item>, arrayType: ArrayType)
    | ObjectKind(properties: seq<Item>, required: seq<Item>)

  /** `get_type` of each class: the base class answers `Item`, every
      subclass its own tag. */
  function GetType(kind: Kind): (t: ModelItemType)
    ensures t == ItemT <==> kind.BaseKind?
    ensures kind.IntKind? <==> t == IntT
    ensures kind.NumberKind? <==> t == NumberT
    ensures kind.BoolKind? <==> t == BoolT
    ensures kind.StringKind? <==> t == StringT
    ensures kind.ArrayKind? <==> t == ArrayT
    ensures kind.ObjectKind? <==> t == ObjectT
  {
    match kind
    case BaseKind => ItemT
    case IntKind(_) => IntT
    case NumberKind(_) => NumberT
    case BoolKind => BoolT
    case StringKind(_) => StringT
    case ArrayKind(_, _) => ArrayT
    case ObjectKind(_, _) => ObjectT
  }

  /** The `allowed_fields` each constructor passes up, followed by `type`
      and `description`. */
  function AllowedFields(kind: Kind): (allowed: seq<string>)
    ensures TypeKey in allowed && DescriptionKey in allowed
    ensures FormatKey in allowed <==> kind.IntKind? || kind.NumberKind?
    ensures EnumKey in allowed <==> kind.StringKind?
    ensures forall k :: k in allowed ==> k in {TypeKey, DescriptionKey, FormatKey, EnumKey}
  {
    var extra :=
      match kind
      case IntKind(_) => [FormatKey]
      case NumberKind(_) => [FormatKey]
      case StringKind(_) => [EnumKey]
      case _ => [];
    extra + [TypeKey, DescriptionKey]
  }

  // ---------------------------------------------------------------------
  // What each `parse` computes

  /** `ModelItem.parse`: the allowed-field check, then `description`. */
  function ParsedCommon(item: Item, fields: seq<(string, Value)>): (r: Result<Item>)
    ensures r.Ok? ==> r.value.name == item.name && r.value.kind == item.kind
  {
    match Dict.FirstKeyOutside(fields, AllowedFields(item.kind))
    case Some(i) => Err(ParsingError(UnknownFieldMsg(item.name, fields[i].0), ""))
    case None =>
      match Dict.Get(fields, DescriptionKey)
      case None => Ok(item)
      case Some(d) =>
        if d.Str? then Ok(item.(description := d.s))
        else Err(ParsingError(DescriptionMsg(item.name), ""))
  }

  /** `ModelInt.parse` */
  function ParsedInt(item: Item, fields: seq<(string, Value)>): (r: Result<Item>)
    requires item.kind.IntKind?
    ensures r.Ok? ==> r.value.name == item.name && r.value.kind.IntKind?
  {
    var base :- ParsedCommon(item, fields);
    match Dict.Get(fields, FormatKey)
    case None => Ok(base)
    case Some(f) =>
      var t :- Utils.ParseEnum(f, IntTypes, FormatKey, base.name);
      Ok(base.(kind := IntKind(t)))
  }

  /** `ModelNumber.parse` */
  function ParsedNumber(item: Item, fields: seq<(string, Value)>): (r: Result<Item>)
    requires item.kind.NumberKind?
    ensures r.Ok? ==> r.value.name == item.name && r.value.kind.NumberKind?
  {
    var base :- ParsedCommon(item, fields);
    match Dict.Get(fields, FormatKey)
    case None => Ok(base)
    case Some(f) =>
      var t :- Utils.ParseEnum(f, NumberTypes, FormatKey, base.name);
      Ok(base.(kind := NumberKind(t)))
  }

  /** `ModelString.__parse_enum` */
  function ParsedEnumList(name: string, v: Value): (r: Result<seq<string>>)
  {
    if Falsy(v) then Err(ParsingError(EmptyEnumMsg(name), ""))
    else if !v.List? || exists i :: 0 <= i < |v.items| && !v.items[i].Str? then
      Err(ParsingError(EnumListMsg(name), ""))
    else Ok(Strings(v.items))
  }

  /** `ModelString.parse` */
  function ParsedString(item: Item, fields: seq<(string, Value)>): (r: Result<Item>)
    requires item.kind.StringKind?
    ensures r.Ok? ==> r.value.name == item.name && r.value.kind.StringKind?
  {
    var base :- ParsedCommon(item, fields);
    match Dict.Get(fields, EnumKey)
    case None => Ok(base)
    case Some(e) =>
      var list :- ParsedEnumList(base.name, e);
      Ok(base.(kind := StringKind(Some(list))))
  }

  /** `item.parse(item_dict)`, dispatched on the item's class; `ModelBool`,
      `ModelArray` and `ModelObject` run only the common part. */
  function Parsed(item: Item, fields: seq<(string, Value)>): (r: Result<Item>)
    ensures r.Ok? ==> r.value.name == item.name && GetType(r.value.kind) == GetType(item.kind)
  {
    match item.kind
    case IntKind(_) => ParsedInt(item, fields)
    case NumberKind(_) => ParsedNumber(item, fields)
    case StringKind(_) => ParsedString(item, fields)
    case _ => ParsedCommon(item, fields)
  }

  // ---------------------------------------------------------------------
  // The `parse` routines as the Python code runs them

  /** `ModelItem.__check_allowed_fields` */
  method CheckAllowedFields(name: string, fields: seq<(string, Value)>, allowed: seq<string>)
    returns (err: Option<Error>)
    ensures err.None? <==> forall i :: 0 <= i < |fields| ==> fields[i].0 in allowed
    ensures err.Some? ==>
              err.value == ParsingError(UnknownFieldMsg(name, fields[Dict.FirstKeyOutside(fields, allowed).value].0), "")
  {
    for i := 0 to |fields|
      invariant forall j :: 0 <= j < i ==> fields[j].0 in allowed
    {
      if fields[i].0 !in allowed {
        return Some(ParsingError(UnknownFieldMsg(name, fields[i].0), ""));
      }
    }
    return None;
  }

  /** `ModelItem.parse` */
  method ParseCommon(item: Item, fields: seq<(string, Value)>) returns (r: Result<Item>)
    ensures r == ParsedCommon(item, fields)
  {
    var err := CheckAllowedFields(item.name, fields, AllowedFields(item.kind));
    if err.Some? {
      return Err(err.value);
    }
    var self := item;
    var description := Dict.Get(fields, DescriptionKey);
    if description.Some? {
      if !description.value.Str? {
        return Err(ParsingError(DescriptionMsg(item.name), ""));
      }
      self := self.(description := description.value.s);
    }
    return Ok(self);
  }

  /** `ModelInt.parse` */
  method ParseInt(item: Item, fields: seq<(string, Value)>) returns (r: Result<Item>)
    requires item.kind.IntKind?
    ensures r == ParsedInt(item, fields)
  {
    var self :- ParseCommon(item, fields);
    var format := Dict.Get(fields, FormatKey);
    if format.Some? {
      var intType :- Utils.ParseEnum(format.value, IntTypes, FormatKey, self.name);
      self := self.(kind := IntKind(intType));
    }
    return Ok(self);
  }

  /** `ModelNumber.parse` */
  method ParseNumber(item: Item, fields: seq<(string, Value)>) returns (r: Result<Item>)
    requires item.kind.NumberKind?
    ensures r == ParsedNumber(item, fields)
  {
    var self :- ParseCommon(item, fields);
    var format := Dict.Get(fields, FormatKey);
    if format.Some? {
      var numberType :- Utils.ParseEnum(format.value, NumberTypes, FormatKey, self.name);
      self := self.(kind := NumberKind(numberType));
    }
    return Ok(self);
  }

  /** `ModelString.__parse_enum` */
  method ParseEnumList(name: string, v: Value) returns (r: Result<seq<string>>)
    ensures r == ParsedEnumList(name, v)
  {
    if Falsy(v) {
      return Err(ParsingError(EmptyEnumMsg(name), ""));
    }
    var errorMsg := EnumListMsg(name);
    if !v.List? {
      return Err(ParsingError(errorMsg, ""));
    }
    for i := 0 to |v.items|
      invariant forall j :: 0 <= j < i ==> v.items[j].Str?
    {
      if !v.items[i].Str? {
        return Err(ParsingError(errorMsg, ""));
      }
    }
    return Ok(Strings(v.items));
  }

  /** `ModelString.parse` */
  method ParseString(item: Item, fields: seq<(string, Value)>) returns (r: Result<Item>)
    requires item.kind.StringKind?
    ensures r == ParsedString(item, fields)
  {
    var self :- ParseCommon(item, fields);
    var enumField := Dict.Get(fields, EnumKey);
    if enumField.Some? {
      var list :- ParseEnumList(self.name, enumField.value);
      self := self.(kind := StringKind(Some(list)));
    }
    return Ok(self);
  }

  /** `item.parse(item_dict)` */
  method Parse(item: Item, fields: seq<(string, Value)>) returns (r: Result<Item>)
    ensures r == Parsed(item, fields)
  {
    match item.kind
    case IntKind(_) => r := ParseInt(item, fields);
    case NumberKind(_) => r := ParseNumber(item, fields);
    case StringKind(_) => r := ParseString(item, fields);
    case _ => r := ParseCommon(item, fields);
  }
}
