/** The `type` field of a definition, resolved to its tag. The middle and
    the newest revision share this code word for word: `__get_item_type` in
    codegen/parser.py and `get_item_type` in codegen/parser/models.py. */
module TypeField {
  import opened Outcomes
  import opened Yaml
  import opened ItemTypes
  import Dict
  import Utils

  const TypeKey: string := "type"

  function TypeRequiredMsg(itemName: string): string {
    "field 'type' is required for item " + itemName
  }

  /** A mapping with a `type` key whose value is one of the seven tag
      strings yields that tag. A value without a `type` key fails with
      "field 'type' is required for item <name>" and no context; Python's
      `in` and `[]` raise a TypeError for values that support neither. */
  function GetItemType(item: Value, itemName: string): (r: Result<ModelItemType>)
    ensures r.Ok? ==> item.Map? && Dict.Get(item.entries, TypeKey) == Some(Str(TypeName(r.value)))
    ensures item.Map? && !Dict.HasKey(item.entries, TypeKey) ==>
              r == Err(ParsingError(TypeRequiredMsg(itemName), ""))
  {
    TablesMatchNames();
    var found :- Contains(item, TypeKey);
    if !found then Err(ParsingError(TypeRequiredMsg(itemName), ""))
    else
      var tag :- Index(item, TypeKey);
      Utils.ParseEnum(tag, ModelItemTypes, TypeKey, itemName)
  }

  /** Every tag string resolves to its own tag. */
  lemma GetItemTypeOfTag(item: Value, itemName: string, t: ModelItemType)
    requires item.Map? && Dict.Get(item.entries, TypeKey) == Some(Str(TypeName(t)))
    ensures GetItemType(item, itemName) == Ok(t)
  {
    TablesDistinct();
    Utils.ParseEnumMember(ModelItemTypes, TypeIndex(t), TypeKey, itemName);
  }

  /** A `type` that is no tag string fails in the item's own context. */
  lemma GetItemTypeInvalid(item: Value, itemName: string)
    requires item.Map? && Dict.Get(item.entries, TypeKey).Some?
    requires forall t :: Dict.Get(item.entries, TypeKey).value != Str(TypeName(t))
    ensures GetItemType(item, itemName) ==
            Err(ParsingError(Utils.InvalidValueMsg(TypeKey, Dict.Get(item.entries, TypeKey).value), itemName))
  {
    var tag := Dict.Get(item.entries, TypeKey).value;
    TablesMatchNames();
    assert forall i :: 0 <= i < |ModelItemTypes| ==> tag != Str(ModelItemTypes[i].0);
  }
}
