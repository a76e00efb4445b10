/** `Parser` of the newest revision (codegen/parser/parser.py): it holds
    the registered items by name and fills them from a document's
    `definitions` block. */
module ParserV3 {
  import opened Outcomes
  import opened Yaml
  import Dict
  import Definitions
  import opened ModelsV3

  class Parser {
    /** `__model_items`: name to item, in registration order. */
    var modelItems: seq<(string, Item)>

    /** No name is registered twice. */
    ghost predicate Valid()
      reads this
    {
      Dict.DistinctKeys(modelItems)
    }

    constructor ()
      ensures modelItems == [] && Valid()
    {
      modelItems := [];
    }

    /** `__add_item`: register `item` under its name, or fail with
        "<name> is defined more than once" and change nothing. */
    method AddItem(item: Item) returns (err: Option<Error>)
      modifies this
      ensures var r := Definitions.Insert(old(modelItems), item.name, item);
              && (r.Ok? ==> modelItems == r.value && err.None?)
              && (r.Err? ==> modelItems == old(modelItems) && err == Some(r.error))
      ensures old(Valid()) ==> Valid()
    {
      if Dict.HasKey(modelItems, item.name) {
        return Some(ParsingError(Definitions.DuplicateMsg(item.name), ""));
      }
      if Valid() {
        Dict.SetDistinct(modelItems, item.name, item);
      }
      modelItems := Dict.Set(modelItems, item.name, item);
      return None;
    }

    /** `parse`: register every definition of the document in order; the
        first error ends the loop, keeping what was registered before it. */
    method Parse(doc: Value) returns (err: Option<Error>)
      modifies this
      ensures (modelItems, err) == Definitions.Run(old(modelItems), doc, ParsedItem)
      ensures old(Valid()) ==> Valid()
    {
      var block := Definitions.DefinitionsBlock(doc);
      if block.Err? {
        return Some(block.error);
      }
      var definitions := Definitions.DefinitionEntries(block.value);
      if definitions.Err? {
        return Some(definitions.error);
      }
      var entries := definitions.value;
      for i := 0 to |entries|
        invariant Definitions.Run(old(modelItems), doc, ParsedItem) == Definitions.Build(modelItems, entries[i..], ParsedItem)
        invariant old(Valid()) ==> Valid()
      {
        assert entries[i..][0] == entries[i] && entries[i..][1..] == entries[i + 1..];
        var item := ParseItem(entries[i].0, entries[i].1);
        if item.Err? {
          return Some(item.error);
        }
        err := AddItem(item.value);
        if err.Some? {
          return;
        }
      }
      assert entries[|entries|..] == [];
      return None;
    }
  }
}
