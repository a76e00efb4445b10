/** The schema item model of the newest revision (codegen/parser/models.py).

    Items are values: an `Item` holds the fields every `ModelItem` has and a
    `Kind` holding the fields of its subclass. `parse` of each class takes a
    freshly created item and the raw mapping and yields the item as its
    fields stand afterwards, or the first error raised.

    The functions named `Parsed...` say what each `parse` routine computes;
    the methods named `Parse...` follow the Python code statement by
    statement (loops included) and are proved to compute exactly that. */
module ModelsV3 {
  import opened Outcomes
  import opened Yaml
  import opened ItemTypes
  import Dict
  import Utils
  import opened TypeField

  const DescriptionKey: string := "description"
  const FormatKey: string := "format"
  const EnumKey: string := "enum"
  const ArrTypeKey: string := "array_type"
  const ItemsKey: string := "items"
  const PropertiesKey: string := "properties"
  const RequiredKey: string := "required"

  /** Suffix of the name given to an anonymous nested item. */
  const NestedSuffix: string := "Items"

  const DescriptionMsg: string := "description must be a string"
  const EmptyEnumMsg: string := "empty enum"
  const EnumListMsg: string := "enum must be a list of strings"
  const ItemsRequiredMsg: string := "array requires field items"
  const PropertiesRequiredMsg: string := "field 'properties' is required"
  const PropertiesMapMsg: string := "properties must be a dictionary"
  const RequiredListMsg: string := "'required' must be a list of property names"

  const UnknownFieldPrefix: string := "unknown field '"

  function UnknownFieldMsg(key: string): string {
    UnknownFieldPrefix + key + "'"
  }

  /** The message is one raised by the allowed-field check. */
  predicate IsUnknownFieldMsg(msg: string) {
    |UnknownFieldPrefix| <= |msg| && msg[..|UnknownFieldPrefix|] == UnknownFieldPrefix
  }

  function RefOrNestedMsg(field: Value): string {
    "items must be an object or a reference, got " + Show(field)
  }

  /** A schema item: the common fields and the fields of its class. */
  datatype Item = Item(name: string, description: string, kind: Kind)

  /** One case per class: `ModelItem` itself, then its six subclasses. */
  datatype Kind =
    | BaseKind
    | IntKind(intType: IntType)
    | NumberKind(numberType: NumberType)
    | BoolKind
    | StringKind(enumList: Option<seq<string>>)
    | ArrayKind(arrayType: ArrayType, itemsType: Option<ItemRef>)
    | ObjectKind(properties: seq<(string, ItemRef)>, required: seq<string>)

  /** `ItemRef`: a reference to another definition by name, or a nested
      item it owns. The two states exclude each other by construction. */
  datatype ItemRef = Reference(ref: string) | Nested(item: Item) {

    function GetRef(): Option<string> {
      if Reference? then Some(ref) else None
    }

    function GetItem(): Option<Item> {
      if Nested? then Some(item) else None
    }

    predicate IsRef() {
      GetRef().Some?
    }

    predicate IsItem() {
      GetItem().Some?
    }
  }

  /** `get_type` of each class. */
  function GetType(kind: Kind): ModelItemType {
    match kind
    case BaseKind => ItemT
    case IntKind(_) => IntT
    case NumberKind(_) => NumberT
    case BoolKind => BoolT
    case StringKind(_) => StringT
    case ArrayKind(_, _) => ArrayT
    case ObjectKind(_, _) => ObjectT
  }

  /** The class's own extra fields followed by `type` and `description`. */
  function AllowedFields(kind: Kind): seq<string> {
    var extra :=
      match kind
      case BaseKind => []
      case BoolKind => []
      case IntKind(_) => [FormatKey]
      case NumberKind(_) => [FormatKey]
      case StringKind(_) => [EnumKey]
      case ArrayKind(_, _) => [ArrTypeKey, ItemsKey]
      case ObjectKind(_, _) => [PropertiesKey, RequiredKey];
    extra + [TypeKey, DescriptionKey]
  }

  /** `create_item`: a new item of the class for tag `t`, with that name, an
      empty description and the class's defaults. The tag `item` has no
      factory and raises a RuntimeError. */
  function CreateItem(name: string, t: ModelItemType): (r: Result<Item>)
    ensures r.Ok? <==> t != ItemT
    ensures r.Ok? ==> r.value.name == name && r.value.description == "" && GetType(r.value.kind) == t
    ensures r.Err? ==> r.error == RuntimeError(UnknownTypeMsg(t))
  {
    match t
    case ItemT => Err(RuntimeError(UnknownTypeMsg(t)))
    case IntT => Ok(Item(name, "", IntKind(Int32)))
    case NumberT => Ok(Item(name, "", NumberKind(Float)))
    case BoolT => Ok(Item(name, "", BoolKind))
    case StringT => Ok(Item(name, "", StringKind(None)))
    case ArrayT => Ok(Item(name, "", ArrayKind(Array, None)))
    case ObjectT => Ok(Item(name, "", ObjectKind([], [])))
  }

  // ---------------------------------------------------------------------
  // What each `parse` computes

  /** `ModelItem.parse`: the allowed-field check, then `description`. */
  function ParsedCommon(item: Item, fields: seq<(string, Value)>): (r: Result<Item>)
    ensures r.Ok? ==> r.value.name == item.name && r.value.kind == item.kind
  {
    match Dict.FirstKeyOutside(fields, AllowedFields(item.kind))
    case Some(i) => Err(ParsingError(UnknownFieldMsg(fields[i].0), item.name))
    case None =>
      match Dict.Get(fields, DescriptionKey)
      case None => Ok(item)
      case Some(d) =>
        if d.Str? then Ok(item.(description := d.s))
        else Err(ParsingError(DescriptionMsg, item.name))
  }

  /** `ModelInt.parse` */
  function ParsedInt(item: Item, fields: seq<(string, Value)>): (r: Result<Item>)
    requires item.kind.IntKind?
    ensures r.Ok? ==> r.value.name == item.name && r.value.kind.IntKind?
  {
    var base :- ParsedCommon(item, fields);
    match Dict.Get(fields, FormatKey)
    case None => Ok(base)
    case Some(f) =>
      var t :- Utils.ParseEnum(f, IntTypes, FormatKey, base.name);
      Ok(base.(kind := IntKind(t)))
  }

  /** `ModelNumber.parse` */
  function ParsedNumber(item: Item, fields: seq<(string, Value)>): (r: Result<Item>)
    requires item.kind.NumberKind?
    ensures r.Ok? ==> r.value.name == item.name && r.value.kind.NumberKind?
  {
    var base :- ParsedCommon(item, fields);
    match Dict.Get(fields, FormatKey)
    case None => Ok(base)
    case Some(f) =>
      var t :- Utils.ParseEnum(f, NumberTypes, FormatKey, base.name);
      Ok(base.(kind := NumberKind(t)))
  }

  /** `ModelString.__parse_enum` */
  function ParsedEnumList(name: string, v: Value): (r: Result<seq<string>>)
  {
    if Falsy(v) then Err(ParsingError(EmptyEnumMsg, name))
    else if !v.List? || exists i :: 0 <= i < |v.items| && !v.items[i].Str? then
      Err(ParsingError(EnumListMsg, name))
    else Ok(Strings(v.items))
  }

  /** `ModelString.parse` */
  function ParsedString(item: Item, fields: seq<(string, Value)>): (r: Result<Item>)
    requires item.kind.StringKind?
    ensures r.Ok? ==> r.value.name == item.name && r.value.kind.StringKind?
  {
    var base :- ParsedCommon(item, fields);
    match Dict.Get(fields, EnumKey)
    case None => Ok(base)
    case Some(e) =>
      var list :- ParsedEnumList(base.name, e);
      Ok(base.(kind := StringKind(Some(list))))
  }

  /** `ModelArray.parse`: `items` first, then `array_type`. */
  function ParsedArray(item: Item, fields: seq<(string, Value)>): (r: Result<Item>)
    requires item.kind.ArrayKind?
    ensures r.Ok? ==> r.value.name == item.name && r.value.kind.ArrayKind?
    decreases Map(fields), 0, 0
  {
    var base :- ParsedCommon(item, fields);
    match Dict.IndexOf(fields, ItemsKey)
    case None => Err(ParsingError(ItemsRequiredMsg, base.name))
    case Some(j) =>
      if Falsy(fields[j].1) then Err(ParsingError(ItemsRequiredMsg, base.name))
      else
        var ref :- ParsedRefOrNested(fields[j].1, base.name);
        match Dict.Get(fields, ArrTypeKey)
        case None => Ok(base.(kind := ArrayKind(base.kind.arrayType, Some(ref))))
        case Some(a) =>
          var t :- Utils.ParseEnum(a, ArrayTypes, ArrTypeKey, base.name);
          Ok(base.(kind := ArrayKind(t, Some(ref))))
  }

  /** `ModelObject.parse`: `properties`, then `required`. */
  function ParsedObject(item: Item, fields: seq<(string, Value)>): (r: Result<Item>)
    requires item.kind.ObjectKind?
    ensures r.Ok? ==> r.value.name == item.name && r.value.kind.ObjectKind?
    decreases Map(fields), 0, 0
  {
    var base :- ParsedCommon(item, fields);
    match Dict.IndexOf(fields, PropertiesKey)
    case None => Err(ParsingError(PropertiesRequiredMsg, base.name))
    case Some(j) =>
      var props := fields[j].1;
      if Falsy(props) || !props.Map? then Err(ParsingError(PropertiesMapMsg, base.name))
      else
        var properties :- ParsedProperties(base.name, props.entries, 0, base.kind.properties);
        var required :- ParsedRequired(base.name, fields, properties, base.kind.required);
        Ok(base.(kind := ObjectKind(properties, required)))
  }

  /** `ModelObject.__parse_properties` from the `i`-th property on, with
      `acc` the properties gathered so far. */
  function ParsedProperties(parentName: string, props: seq<(string, Value)>, i: nat,
                            acc: seq<(string, ItemRef)>): (r: Result<seq<(string, ItemRef)>>)
    requires i <= |props|
    decreases Map(props), 0, |props| - i
  {
    if i == |props| then Ok(acc)
    else
      var ref :- ParsedRefOrNested(props[i].1, parentName);
      ParsedProperties(parentName, props, i + 1, Dict.Set(acc, props[i].0, ref))
  }

  /** `ModelObject.__parse_required` */
  function ParsedRequired(name: string, fields: seq<(string, Value)>, properties: seq<(string, ItemRef)>,
                          acc: seq<string>): (r: Result<seq<string>>)
  {
    match Dict.Get(fields, RequiredKey)
    case None => Ok(acc)
    case Some(v) =>
      if Falsy(v) then Ok(acc)
      else if !v.List? then Err(ParsingError(RequiredListMsg, name))
      else RequiredNames(name, v.items, properties, acc)
  }

  /** The loop of `__parse_required` over the listed names. */
  function RequiredNames(name: string, xs: seq<Value>, properties: seq<(string, ItemRef)>,
                         acc: seq<string>): (r: Result<seq<string>>)
    decreases |xs|
  {
    if xs == [] then Ok(acc)
    else if !xs[0].Str? || !Dict.HasKey(properties, xs[0].s) then Err(ParsingError(RequiredListMsg, name))
    else RequiredNames(name, xs[1..], properties, acc + [xs[0].s])
  }

  /** `item.parse(item_dict)`, dispatched on the item's class. */
  function Parsed(item: Item, fields: seq<(string, Value)>): (r: Result<Item>)
    ensures r.Ok? ==> r.value.name == item.name && GetType(r.value.kind) == GetType(item.kind)
    decreases Map(fields), 1, 0
  {
    match item.kind
    case BaseKind => ParsedCommon(item, fields)
    case BoolKind => ParsedCommon(item, fields)
    case IntKind(_) => ParsedInt(item, fields)
    case NumberKind(_) => ParsedNumber(item, fields)
    case StringKind(_) => ParsedString(item, fields)
    case ArrayKind(_, _) => ParsedArray(item, fields)
    case ObjectKind(_, _) => ParsedObject(item, fields)
  }

  /** `parse_ref_or_nested_item` */
  function ParsedRefOrNested(field: Value, parentName: string): (r: Result<ItemRef>)
    decreases field, 3, 0
  {
    var isRef := Utils.IsReference(field);
    if !isRef && !field.Map? then Err(ParsingError(RefOrNestedMsg(field), parentName))
    else if isRef then Ok(Reference(Utils.GetReferencedItemName(field.s)))
    else
      var item :- ParsedItem(parentName + NestedSuffix, field);
      Ok(Nested(item))
  }

  /** Resolve the tag, create the item under `name`, parse it: the three
      steps `parse_ref_or_nested_item` and `Parser.__parse_item` share. */
  function ParsedItem(name: string, v: Value): (r: Result<Item>)
    ensures r.Ok? ==> r.value.name == name
    decreases v, 2, 0
  {
    var t :- GetItemType(v, name);
    var item :- CreateItem(name, t);
    Parsed(item, v.entries)
  }

  // ---------------------------------------------------------------------
  // The `parse` routines as the Python code runs them

  /** `ModelItem.__check_allowed_fields` */
  method CheckAllowedFields(name: string, fields: seq<(string, Value)>, allowed: seq<string>)
    returns (err: Option<Error>)
    ensures err.None? <==> forall i :: 0 <= i < |fields| ==> fields[i].0 in allowed
    ensures err.Some? ==> err.value == ParsingError(UnknownFieldMsg(fields[Dict.FirstKeyOutside(fields, allowed).value].0), name)
  {
    for i := 0 to |fields|
      invariant forall j :: 0 <= j < i ==> fields[j].0 in allowed
    {
      if fields[i].0 !in allowed {
        return Some(ParsingError(UnknownFieldMsg(fields[i].0), name));
      }
    }
    return None;
  }

  /** `ModelItem.parse` */
  method ParseCommon(item: Item, fields: seq<(string, Value)>) returns (r: Result<Item>)
    ensures r == ParsedCommon(item, fields)
  {
    var err := CheckAllowedFields(item.name, fields, AllowedFields(item.kind));
    if err.Some? {
      return Err(err.value);
    }
    var self := item;
    var description := Dict.Get(fields, DescriptionKey);
    if description.Some? {
      if !description.value.Str? {
        return Err(ParsingError(DescriptionMsg, item.name));
      }
      self := self.(description := description.value.s);
    }
    return Ok(self);
  }

  /** `ModelInt.parse` */
  method ParseInt(item: Item, fields: seq<(string, Value)>) returns (r: Result<Item>)
    requires item.kind.IntKind?
    ensures r == ParsedInt(item, fields)
  {
    var self :- ParseCommon(item, fields);
    var format := Dict.Get(fields, FormatKey);
    if format.Some? {
      var intType :- Utils.ParseEnum(format.value, IntTypes, FormatKey, self.name);
      self := self.(kind := IntKind(intType));
    }
    return Ok(self);
  }

  /** `ModelNumber.parse` */
  method ParseNumber(item: Item, fields: seq<(string, Value)>) returns (r: Result<Item>)
    requires item.kind.NumberKind?
    ensures r == ParsedNumber(item, fields)
  {
    var self :- ParseCommon(item, fields);
    var format := Dict.Get(fields, FormatKey);
    if format.Some? {
      var numberType :- Utils.ParseEnum(format.value, NumberTypes, FormatKey, self.name);
      self := self.(kind := NumberKind(numberType));
    }
    return Ok(self);
  }

  /** `ModelString.__parse_enum` */
  method ParseEnumList(name: string, v: Value) returns (r: Result<seq<string>>)
    ensures r == ParsedEnumList(name, v)
  {
    if Falsy(v) {
      return Err(ParsingError(EmptyEnumMsg, name));
    }
    var exception := ParsingError(EnumListMsg, name);
    if !v.List? {
      return Err(exception);
    }
    for i := 0 to |v.items|
      invariant forall j :: 0 <= j < i ==> v.items[j].Str?
    {
      if !v.items[i].Str? {
        return Err(exception);
      }
    }
    return Ok(Strings(v.items));
  }

  /** `ModelString.parse` */
  method ParseString(item: Item, fields: seq<(string, Value)>) returns (r: Result<Item>)
    requires item.kind.StringKind?
    ensures r == ParsedString(item, fields)
  {
    var self :- ParseCommon(item, fields);
    var enumField := Dict.Get(fields, EnumKey);
    if enumField.Some? {
      var list :- ParseEnumList(self.name, enumField.value);
      self := self.(kind := StringKind(Some(list)));
    }
    return Ok(self);
  }

  /** `ModelArray.parse` with `__parse_items` */
  method ParseArray(item: Item, fields: seq<(string, Value)>) returns (r: Result<Item>)
    requires item.kind.ArrayKind?
    ensures r == ParsedArray(item, fields)
    decreases Map(fields), 0, 0
  {
    var self :- ParseCommon(item, fields);
    var j := Dict.IndexOf(fields, ItemsKey);
    if j.None? || Falsy(fields[j.value].1) {
      return Err(ParsingError(ItemsRequiredMsg, self.name));
    }
    var itemsType :- ParseRefOrNestedItem(fields[j.value].1, self.name);
    self := self.(kind := self.kind.(itemsType := Some(itemsType)));
    var arrType := Dict.Get(fields, ArrTypeKey);
    if arrType.Some? {
      var arrayType :- Utils.ParseEnum(arrType.value, ArrayTypes, ArrTypeKey, self.name);
      self := self.(kind := self.kind.(arrayType := arrayType));
    }
    return Ok(self);
  }

  /** `ModelObject.parse` */
  method ParseObject(item: Item, fields: seq<(string, Value)>) returns (r: Result<Item>)
    requires item.kind.ObjectKind?
    ensures r == ParsedObject(item, fields)
    decreases Map(fields), 0, 0
  {
    var self :- ParseCommon(item, fields);
    var j := Dict.IndexOf(fields, PropertiesKey);
    if j.None? {
      return Err(ParsingError(PropertiesRequiredMsg, self.name));
    }
    var props := fields[j.value].1;
    if Falsy(props) || !props.Map? {
      return Err(ParsingError(PropertiesMapMsg, self.name));
    }
    var properties :- ParseProperties(self.name, props.entries, self.kind.properties);
    self := self.(kind := self.kind.(properties := properties));
    var required :- ParseRequired(self.name, fields, properties, self.kind.required);
    self := self.(kind := self.kind.(required := required));
    return Ok(self);
  }

  /** The loop of `ModelObject.__parse_properties`: each property becomes an
      item reference stored under the property's own name. */
  method ParseProperties(parentName: string, props: seq<(string, Value)>, acc: seq<(string, ItemRef)>)
    returns (r: Result<seq<(string, ItemRef)>>)
    ensures r == ParsedProperties(parentName, props, 0, acc)
    decreases Map(props), 1, 0
  {
    var properties := acc;
    for i := 0 to |props|
      invariant ParsedProperties(parentName, props, 0, acc) == ParsedProperties(parentName, props, i, properties)
    {
      var ref :- ParseRefOrNestedItem(props[i].1, parentName);
      properties := Dict.Set(properties, props[i].0, ref);
    }
    return Ok(properties);
  }

  /** `ModelObject.__parse_required` */
  method ParseRequired(name: string, fields: seq<(string, Value)>, properties: seq<(string, ItemRef)>,
                       acc: seq<string>) returns (r: Result<seq<string>>)
    ensures r == ParsedRequired(name, fields, properties, acc)
  {
    var requiredList := Dict.Get(fields, RequiredKey);
    if requiredList.None? || Falsy(requiredList.value) {
      return Ok(acc);
    }
    if !requiredList.value.List? {
      return Err(ParsingError(RequiredListMsg, name));
    }
    var xs := requiredList.value.items;
    var required := acc;
    for i := 0 to |xs|
      invariant RequiredNames(name, xs, properties, acc) == RequiredNames(name, xs[i..], properties, required)
    {
      assert xs[i..][1..] == xs[i + 1..];
      if !xs[i].Str? || !Dict.HasKey(properties, xs[i].s) {
        return Err(ParsingError(RequiredListMsg, name));
      }
      required := required + [xs[i].s];
    }
    assert xs[|xs|..] == [];
    return Ok(required);
  }

  /** `item.parse(item_dict)` */
  method Parse(item: Item, fields: seq<(string, Value)>) returns (r: Result<Item>)
    ensures r == Parsed(item, fields)
    decreases Map(fields), 1, 0
  {
    match item.kind
    case BaseKind => r := ParseCommon(item, fields);
    case BoolKind => r := ParseCommon(item, fields);
    case IntKind(_) => r := ParseInt(item, fields);
    case NumberKind(_) => r := ParseNumber(item, fields);
    case StringKind(_) => r := ParseString(item, fields);
    case ArrayKind(_, _) => r := ParseArray(item, fields);
    case ObjectKind(_, _) => r := ParseObject(item, fields);
  }

  /** `parse_ref_or_nested_item` */
  method ParseRefOrNestedItem(field: Value, parentName: string) returns (r: Result<ItemRef>)
    ensures r == ParsedRefOrNested(field, parentName)
    decreases field, 3, 0
  {
    var isReference := Utils.IsReference(field);
    if !isReference && !field.Map? {
      return Err(ParsingError(RefOrNestedMsg(field), parentName));
    }
    if isReference {
      return Ok(Reference(Utils.GetReferencedItemName(field.s)));
    }
    var item :- ParseItem(parentName + NestedSuffix, field);
    return Ok(Nested(item));
  }

  /** Tag, factory, parse. */
  method ParseItem(name: string, v: Value) returns (r: Result<Item>)
    ensures r == ParsedItem(name, v)
    decreases v, 2, 0
  {
    var t :- GetItemType(v, name);
    var item :- CreateItem(name, t);
    r := Parse(item, v.entries);
  }
}
