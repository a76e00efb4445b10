/** `Parser` of the oldest revision (src/codegen/parser.py). It has its own
    `ParsingError`, which carries only a message (modelled with an empty
    context), and its own enum lookup. There is no allowed-field check: a
    definition's `description` is copied as it is, an int or a number reads
    its `format`, and every other key is ignored. */
module ParserV1 {
  import opened Outcomes
  import opened Yaml
  import opened ItemTypes
  import Dict
  import Utils
  import Definitions
  import opened ModelsV1

  const TypeKey: string := "type"
  const DescriptionKey: string := "description"
  const FormatKey: string := "format"

  function TypeRequiredMsg(itemName: string): string {
    "field 'type' is required for item " + itemName
  }

  function InvalidValueMsg(enumName: string, ownerName: string, value: Value): string {
    "field " + enumName + " of item " + ownerName + " has invalid value '" + Show(value) + "'"
  }

  /** What `str.format` raises for the template used when the owner is
      empty: it closes one brace more than it opens. */
  const UnmatchedBraceMsg: string := "Single '}' encountered in format string"

  /** `__parse_enum`: the member whose value string equals `value`;
      otherwise "field <enum> of item <owner> has invalid value '<value>'",
      or, for an empty owner, the ValueError of the malformed template. */
  function ParseEnum<T>(value: Value, members: seq<(string, T)>, enumName: string, ownerName: string): (r: Result<T>)
    ensures r.Ok? <==> exists i :: 0 <= i < |members| && value == Str(members[i].0)
    ensures r.Ok? ==> exists i :: 0 <= i < |members| && value == Str(members[i].0) && r.value == members[i].1
    ensures r.Err? && ownerName != "" ==> r.error == ParsingError(InvalidValueMsg(enumName, ownerName, value), "")
    ensures r.Err? && ownerName == "" ==> r.error == ValueError(UnmatchedBraceMsg)
  {
    match Utils.FindMember(value, members)
    case Some(m) => Ok(m)
    case None =>
      if ownerName != "" then Err(ParsingError(InvalidValueMsg(enumName, ownerName, value), ""))
      else Err(ValueError(UnmatchedBraceMsg))
  }

  /** When no two members share a value string, the value string of a
      member selects exactly that member, whatever the owner. */
  lemma ParseEnumMember<T>(members: seq<(string, T)>, i: nat, enumName: string, ownerName: string)
    requires i < |members| && DistinctNames(members)
    ensures ParseEnum(Str(members[i].0), members, enumName, ownerName) == Ok(members[i].1)
  {
  }

  /** `__get_item_type`: the tag named by the `type` key; without one,
      "field 'type' is required for item <name>". */
  function GetItemType(item: Value, itemName: string): (r: Result<ModelItemType>)
    ensures r.Ok? ==> item.Map? && Dict.Get(item.entries, TypeKey) == Some(Str(TypeName(r.value)))
    ensures item.Map? && !Dict.HasKey(item.entries, TypeKey) ==>
              r == Err(ParsingError(TypeRequiredMsg(itemName), ""))
  {
    TablesMatchNames();
    var found :- Contains(item, TypeKey);
    if !found then Err(ParsingError(TypeRequiredMsg(itemName), ""))
    else
      var tag :- Index(item, TypeKey);
      ParseEnum(tag, ModelItemTypes, TypeKey, itemName)
  }

  /** Every tag string resolves to its own tag. */
  lemma GetItemTypeOfTag(item: Value, itemName: string, t: ModelItemType)
    requires item.Map? && Dict.Get(item.entries, TypeKey) == Some(Str(TypeName(t)))
    ensures GetItemType(item, itemName) == Ok(t)
  {
    TablesDistinct();
    ParseEnumMember(ModelItemTypes, TypeIndex(t), TypeKey, itemName);
  }

  /** `__create_item`: the item the class for tag `t` constructs; the tag
      `item` has no factory and raises a RuntimeError. */
  function CreateItem(name: string, t: ModelItemType): (r: Result<Item>)
    ensures r.Ok? <==> t != ItemT
    ensures r.Ok? ==> r.value == NewItem(name, t)
    ensures r.Err? ==> r.error == RuntimeError(UnknownTypeMsg(t))
  {
    if t == ItemT then Err(RuntimeError(UnknownTypeMsg(t)))
    else Ok(NewItem(name, t))
  }

  /** `__parse_description`: the value under `description` as it is, or
      None when there is none. */
  function ParsedDescription(fields: seq<(string, Value)>): (d: Value)
    ensures Dict.HasKey(fields, DescriptionKey) ==> Dict.Get(fields, DescriptionKey) == Some(d)
    ensures !Dict.HasKey(fields, DescriptionKey) ==> d == Null
  {
    match Dict.Get(fields, DescriptionKey)
    case Some(d) => d
    case None => Null
  }

  /** `__parse_int` */
  function ParsedInt(item: Item, fields: seq<(string, Value)>): (r: Result<Item>)
    requires item.kind.IntKind?
    ensures r.Ok? ==> r.value.name == item.name && r.value.description == item.description && r.value.kind.IntKind?
  {
    match Dict.Get(fields, FormatKey)
    case None => Ok(item)
    case Some(f) =>
      var t :- ParseEnum(f, IntTypes, FormatKey, item.name);
      Ok(item.(kind := IntKind(t)))
  }

  /** `__parse_number` */
  function ParsedNumber(item: Item, fields: seq<(string, Value)>): (r: Result<Item>)
    requires item.kind.NumberKind?
    ensures r.Ok? ==> r.value.name == item.name && r.value.description == item.description && r.value.kind.NumberKind?
  {
    match Dict.Get(fields, FormatKey)
    case None => Ok(item)
    case Some(f) =>
      var t :- ParseEnum(f, NumberTypes, FormatKey, item.name);
      Ok(item.(kind := NumberKind(t)))
  }

  /** `__parse_item`: tag, factory, description, then the format of an int
      or a number. */
  function ParsedItem(name: string, v: Value): (r: Result<Item>)
    ensures r.Ok? ==> r.value.name == name
  {
    var t :- GetItemType(v, name);
    var created :- CreateItem(name, t);
    var item := created.(description := ParsedDescription(v.entries));
    if GetType(item.kind) == IntT then ParsedInt(item, v.entries)
    else if GetType(item.kind) == NumberT then ParsedNumber(item, v.entries)
    else Ok(item)
  }

  /** `__parse_int`, assigning the format of the item it is given. */
  method ParseInt(item: Item, fields: seq<(string, Value)>) returns (r: Result<Item>)
    requires item.kind.IntKind?
    ensures r == ParsedInt(item, fields)
  {
    var self := item;
    var format := Dict.Get(fields, FormatKey);
    if format.Some? {
      var intType :- ParseEnum(format.value, IntTypes, FormatKey, self.name);
      self := self.(kind := IntKind(intType));
    }
    return Ok(self);
  }

  /** `__parse_number`, assigning the format of the item it is given. */
  method ParseNumber(item: Item, fields: seq<(string, Value)>) returns (r: Result<Item>)
    requires item.kind.NumberKind?
    ensures r == ParsedNumber(item, fields)
  {
    var self := item;
    var format := Dict.Get(fields, FormatKey);
    if format.Some? {
      var numberType :- ParseEnum(format.value, NumberTypes, FormatKey, self.name);
      self := self.(kind := NumberKind(numberType));
    }
    return Ok(self);
  }

  /** `__parse_item` as written: the item is created, its description
      assigned, and the two format readers run on it in turn. */
  method ParseItem(name: string, v: Value) returns (r: Result<Item>)
    ensures r == ParsedItem(name, v)
  {
    var t :- GetItemType(v, name);
    var item :- CreateItem(name, t);
    item := item.(description := ParsedDescription(v.entries));
    if GetType(item.kind) == IntT {
      item :- ParseInt(item, v.entries);
    }
    if GetType(item.kind) == NumberT {
      item :- ParseNumber(item, v.entries);
    }
    return Ok(item);
  }

  class Parser {
    /** `__model_items`: name to item, in registration order. */
    var modelItems: seq<(string, Item)>

    /** No name is registered twice. */
    ghost predicate Valid()
      reads this
    {
      Dict.DistinctKeys(modelItems)
    }

    constructor ()
      ensures modelItems == [] && Valid()
    {
      modelItems := [];
    }

    /** `__add_item`: register `item` under its name, or fail with
        "<name> is defined more than once" and change nothing. */
    method AddItem(item: Item) returns (err: Option<Error>)
      modifies this
      ensures var r := Definitions.Insert(old(modelItems), item.name, item);
              && (r.Ok? ==> modelItems == r.value && err.None?)
              && (r.Err? ==> modelItems == old(modelItems) && err == Some(r.error))
      ensures old(Valid()) ==> Valid()
    {
      if Dict.HasKey(modelItems, item.name) {
        return Some(ParsingError(Definitions.DuplicateMsg(item.name), ""));
      }
      if Valid() {
        Dict.SetDistinct(modelItems, item.name, item);
      }
      modelItems := Dict.Set(modelItems, item.name, item);
      return None;
    }

    /** `parse`: register every definition of the document in order; the
        first error ends the loop, keeping what was registered before it. */
    method Parse(doc: Value) returns (err: Option<Error>)
      modifies this
      ensures (modelItems, err) == Definitions.Run(old(modelItems), doc, ParsedItem)
      ensures old(Valid()) ==> Valid()
    {
      var block := Definitions.DefinitionsBlock(doc);
      if block.Err? {
        return Some(block.error);
      }
      var definitions := Definitions.DefinitionEntries(block.value);
      if definitions.Err? {
        return Some(definitions.error);
      }
      var entries := definitions.value;
      for i := 0 to |entries|
        invariant Definitions.Run(old(modelItems), doc, ParsedItem) == Definitions.Build(modelItems, entries[i..], ParsedItem)
        invariant old(Valid()) ==> Valid()
      {
        assert entries[i..][0] == entries[i] && entries[i..][1..] == entries[i + 1..];
        var item := ParseItem(entries[i].0, entries[i].1);
        if item.Err? {
          return Some(item.error);
        }
        err := AddItem(item.value);
        if err.Some? {
          return;
        }
      }
      assert entries[|entries|..] == [];
      return None;
    }
  }
}
