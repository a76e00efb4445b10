/** What the middle revision's `Parser` steps promise about a single
    definition; the registration loop itself is `Definitions`. */
module ParserV2Properties {
  import opened Outcomes
  import opened Yaml
  import opened ItemTypes
  import Dict
  import opened TypeField
  import opened ModelsV2
  import opened ParserV2

  /** The tag `item` passes the type lookup but has no factory, so a
      definition of that type fails with a RuntimeError. */
  lemma ItemTagNotCreatable(name: string, v: Value)
    requires v.Map? && Dict.Get(v.entries, TypeKey) == Some(Str("item"))
    ensures ParsedItem(name, v) == Err(RuntimeError(UnknownTypeMsg(ItemT)))
  {
    GetItemTypeOfTag(v, name, ItemT);
  }

  /** A parsed definition is named by its key and has the class its `type`
      names; its fields are those `parse` gives a fresh item of that class. */
  lemma ParsedItemSteps(name: string, v: Value)
    requires ParsedItem(name, v).Ok?
    ensures GetItemType(v, name).Ok? && GetItemType(v, name).value != ItemT
    ensures v.Map? && Dict.Get(v.entries, TypeKey) == Some(Str(TypeName(GetItemType(v, name).value)))
    ensures ParsedItem(name, v) == Parsed(CreateItem(name, GetItemType(v, name).value).value, v.entries)
    ensures ParsedItem(name, v).value.name == name
    ensures GetType(ParsedItem(name, v).value.kind) == GetItemType(v, name).value
  {
  }

  /** A new item of each class, before any field is read. */
  lemma CreateItemDefaults(name: string)
    ensures CreateItem(name, IntT) == Ok(Item(name, "", IntKind(Int32)))
    ensures CreateItem(name, NumberT) == Ok(Item(name, "", NumberKind(Float)))
    ensures CreateItem(name, BoolT) == Ok(Item(name, "", BoolKind))
    ensures CreateItem(name, StringT) == Ok(Item(name, "", StringKind(None)))
    ensures CreateItem(name, ArrayT) == Ok(Item(name, "", ArrayKind(None, Array)))
    ensures CreateItem(name, ObjectT) == Ok(Item(name, "", ObjectKind([], [])))
  {
  }
}
