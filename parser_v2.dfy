/** `Parser` of the middle revision (codegen/parser.py): the item factory,
    the per-definition steps, and the registration loop. */
module ParserV2 {
  import opened Outcomes
  import opened Yaml
  import opened ItemTypes
  import Dict
  import Definitions
  import opened TypeField
  import opened ModelsV2

  /** `__create_item`: a new item of the class for tag `t`, with that name,
      an empty description and the class's defaults. The tag `item` has no
      factory and raises a RuntimeError. */
  function CreateItem(name: string, t: ModelItemType): (r: Result<Item>)
    ensures r.Ok? <==> t != ItemT
    ensures r.Ok? ==> r.value.name == name && r.value.description == "" && GetType(r.value.kind) == t
    ensures r.Err? ==> r.error == RuntimeError(UnknownTypeMsg(t))
  {
    match t
    case ItemT => Err(RuntimeError(UnknownTypeMsg(t)))
    case IntT => Ok(Item(name, "", IntKind(Int32)))
    case NumberT => Ok(Item(name, "", NumberKind(Float)))
    case BoolT => Ok(Item(name, "", BoolKind))
    case StringT => Ok(Item(name, "", StringKind(None)))
    case ArrayT => Ok(Item(name, "", ArrayKind(None, Array)))
    case ObjectT => Ok(Item(name, "", ObjectKind([], [])))
  }

  /** `__parse_item`: resolve the tag, create the item under `name`, parse
      its fields. */
  function ParsedItem(name: string, v: Value): (r: Result<Item>)
    ensures r.Ok? ==> r.value.name == name
  {
    var t :- GetItemType(v, name);
    var item :- CreateItem(name, t);
    Parsed(item, v.entries)
  }

  /** `__parse_item` as written: three steps, each passing its error on. */
  method ParseItem(name: string, v: Value) returns (r: Result<Item>)
    ensures r == ParsedItem(name, v)
  {
    var t :- GetItemType(v, name);
    var item :- CreateItem(name, t);
    r := Parse(item, v.entries);
  }

  class Parser {
    /** `__model_items`: name to item, in registration order. */
    var modelItems: seq<(string, Item)>

    /** No name is registered twice. */
    ghost predicate Valid()
      reads this
    {
      Dict.DistinctKeys(modelItems)
    }

    constructor ()
      ensures modelItems == [] && Valid()
    {
      modelItems := [];
    }

    /** `__add_item`: register `item` under its name, or fail with
        "<name> is defined more than once" and change nothing. */
    method AddItem(item: Item) returns (err: Option<Error>)
      modifies this
      ensures var r := Definitions.Insert(old(modelItems), item.name, item);
              && (r.Ok? ==> modelItems == r.value && err.None?)
              && (r.Err? ==> modelItems == old(modelItems) && err == Some(r.error))
      ensures old(Valid()) ==> Valid()
    {
      if Dict.HasKey(modelItems, item.name) {
        return Some(ParsingError(Definitions.DuplicateMsg(item.name), ""));
      }
      if Valid() {
        Dict.SetDistinct(modelItems, item.name, item);
      }
      modelItems := Dict.Set(modelItems, item.name, item);
      return None;
    }

    /** `parse`: register every definition of the document in order; the
        first error ends the loop, keeping what was registered before it. */
    method Parse(doc: Value) returns (err: Option<Error>)
      modifies this
      ensures (modelItems, err) == Definitions.Run(old(modelItems), doc, ParsedItem)
      ensures old(Valid()) ==> Valid()
    {
      var block := Definitions.DefinitionsBlock(doc);
      if block.Err? {
        return Some(block.error);
      }
      var definitions := Definitions.DefinitionEntries(block.value);
      if definitions.Err? {
        return Some(definitions.error);
      }
      var entries := definitions.value;
      for i := 0 to |entries|
        invariant Definitions.Run(old(modelItems), doc, ParsedItem) == Definitions.Build(modelItems, entries[i..], ParsedItem)
        invariant old(Valid()) ==> Valid()
      {
        assert entries[i..][0] == entries[i] && entries[i..][1..] == entries[i + 1..];
        var item := ParseItem(entries[i].0, entries[i].1);
        if item.Err? {
          return Some(item.error);
        }
        err := AddItem(item.value);
        if err.Some? {
          return;
        }
      }
      assert entries[|entries|..] == [];
      return None;
    }
  }
}
