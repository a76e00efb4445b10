/** The document used as the end-to-end example of the newest revision:
    an int with a format, and an array whose element type is an anonymous
    string enum. */
module ScenariosV3 {
  import opened Outcomes
  import opened Yaml
  import opened ItemTypes
  import Dict
  import Utils
  import Definitions
  import opened TypeField
  import opened ModelsV3

  const AgeDef: Value := Map([("type", Str("int")), ("format", Str("int64"))])
  const TagsItemsDef: Value := Map([("type", Str("string")), ("enum", List([Str("a"), Str("b")]))])
  const TagsDef: Value := Map([("type", Str("array")), ("items", TagsItemsDef)])
  const Doc: Value := Map([("definitions", Map([("Age", AgeDef), ("Tags", TagsDef)]))])

  const Age: Item := Item("Age", "", IntKind(Int64))
  const TagsItems: Item := Item("TagsItems", "", StringKind(Some(["a", "b"])))
  const Tags: Item := Item("Tags", "", ArrayKind(Array, Some(Nested(TagsItems))))

  lemma AgeCommon()
    ensures ParsedCommon(Item("Age", "", IntKind(Int32)), AgeDef.entries) == Ok(Item("Age", "", IntKind(Int32)))
  {
    var item := Item("Age", "", IntKind(Int32));
    assert Dict.FirstKeyOutside(AgeDef.entries, AllowedFields(item.kind)).None?;
    assert Dict.Get(AgeDef.entries, DescriptionKey) == None;
  }

  lemma AgeFields()
    ensures ParsedInt(Item("Age", "", IntKind(Int32)), AgeDef.entries) == Ok(Age)
  {
    AgeCommon();
    assert Dict.Get(AgeDef.entries, FormatKey) == Some(Str("int64"));
    AgeFormat();
  }

  lemma AgeFormat()
    ensures Utils.ParseEnum(Str("int64"), IntTypes, FormatKey, "Age") == Ok(Int64)
  {
    TablesDistinct();
    Utils.ParseEnumMember(IntTypes, 3, FormatKey, "Age");
  }

  lemma AgeParses()
    ensures ParsedItem("Age", AgeDef) == Ok(Age)
  {
    GetItemTypeOfTag(AgeDef, "Age", IntT);
    AgeFields();
  }

  lemma TagsItemsEnum()
    ensures ParsedEnumList("TagsItems", List([Str("a"), Str("b")])) == Ok(["a", "b"])
  {
    assert Strings([Str("a"), Str("b")]) == ["a", "b"];
  }

  lemma TagsItemsFields()
    ensures ParsedString(Item("TagsItems", "", StringKind(None)), TagsItemsDef.entries) == Ok(TagsItems)
  {
    var item := Item("TagsItems", "", StringKind(None));
    var fields := TagsItemsDef.entries;
    assert Dict.FirstKeyOutside(fields, AllowedFields(item.kind)).None?;
    assert Dict.Get(fields, DescriptionKey) == None;
    assert ParsedCommon(item, fields) == Ok(item);
    assert Dict.Get(fields, EnumKey) == Some(List([Str("a"), Str("b")]));
    TagsItemsEnum();
  }

  lemma TagsItemsParses()
    ensures ParsedItem("TagsItems", TagsItemsDef) == Ok(TagsItems)
  {
    GetItemTypeOfTag(TagsItemsDef, "TagsItems", StringT);
    TagsItemsFields();
  }

  // The lemmas about `Tags` take the definition, or its fields, as a
  // parameter equal to the constant rather than the constant itself: over
  // a literal argument the verifier unfolds the mutually recursive parse
  // functions without bound, and over a parameter it unfolds them once.

  lemma TagsCommon(fields: seq<(string, Value)>)
    requires fields == TagsDef.entries
    ensures ParsedCommon(Item("Tags", "", ArrayKind(Array, None)), fields) == Ok(Item("Tags", "", ArrayKind(Array, None)))
  {
    var item := Item("Tags", "", ArrayKind(Array, None));
    assert Dict.FirstKeyOutside(fields, AllowedFields(item.kind)).None?;
    assert Dict.Get(fields, DescriptionKey) == None;
  }

  lemma TagsRef(itemsDef: Value)
    requires itemsDef == TagsItemsDef
    ensures ParsedRefOrNested(itemsDef, "Tags") == Ok(Nested(TagsItems))
  {
    assert "Tags" + NestedSuffix == "TagsItems";
    TagsItemsParses();
  }

  lemma TagsFields(fields: seq<(string, Value)>)
    requires fields == TagsDef.entries
    ensures ParsedArray(Item("Tags", "", ArrayKind(Array, None)), fields) == Ok(Tags)
  {
    TagsCommon(fields);
    assert Dict.IndexOf(fields, ItemsKey) == Some(1);
    TagsRef(fields[1].1);
    ArrayOfItems(Item("Tags", "", ArrayKind(Array, None)), fields, 1, Nested(TagsItems));
  }

  /** An array whose `items` is a non-empty element definition and which
      has no `array_type` keeps its array type and owns that element. */
  lemma ArrayOfItems(item: Item, fields: seq<(string, Value)>, j: nat, ref: ItemRef)
    requires item.kind.ArrayKind? && ParsedCommon(item, fields) == Ok(item)
    requires Dict.IndexOf(fields, ItemsKey) == Some(j) && !Falsy(fields[j].1)
    requires ParsedRefOrNested(fields[j].1, item.name) == Ok(ref) && Dict.Get(fields, ArrTypeKey).None?
    ensures ParsedArray(item, fields) == Ok(item.(kind := ArrayKind(item.kind.arrayType, Some(ref))))
  {
  }

  lemma TagsParses(tagsDef: Value)
    requires tagsDef == TagsDef
    ensures ParsedItem("Tags", tagsDef) == Ok(Tags)
  {
    TagsType();
    TagsFields(tagsDef.entries);
    ItemOfType("Tags", tagsDef, ArrayT, Item("Tags", "", ArrayKind(Array, None)), Ok(Tags));
  }

  lemma TagsType()
    ensures GetItemType(TagsDef, "Tags") == Ok(ArrayT)
  {
    assert Dict.Get(TagsDef.entries, TypeKey) == Some(Str(TypeName(ArrayT)));
    GetItemTypeOfTag(TagsDef, "Tags", ArrayT);
  }

  /** Once the type tag is read, the item is the default one of that type,
      parsed from the mapping's fields. */
  lemma ItemOfType(name: string, v: Value, t: ModelItemType, item: Item, r: Result<Item>)
    requires GetItemType(v, name) == Ok(t) && CreateItem(name, t) == Ok(item)
    requires Parsed(item, v.entries) == r
    ensures ParsedItem(name, v) == r
  {
  }

  lemma DocBlock()
    ensures Definitions.DefinitionsBlock(Doc) == Ok(Map([("Age", AgeDef), ("Tags", TagsDef)]))
  {
    assert Dict.Keys(Doc.entries) == ["definitions"];
    assert Dict.IndexOf(Doc.entries, "definitions") == Some(0);
  }

  lemma BuildTags(tagsDef: Value)
    requires ParsedItem("Tags", tagsDef) == Ok(Tags)
    ensures Definitions.Build([("Age", Age)], [("Tags", tagsDef)], ParsedItem) == ([("Age", Age), ("Tags", Tags)], None)
  {
    assert Dict.Keys([("Age", Age)]) == ["Age"];
    Definitions.BuildStep([("Age", Age)], "Tags", tagsDef, [], ParsedItem, Tags);
    assert [("Tags", tagsDef)] + [] == [("Tags", tagsDef)];
    assert [("Age", Age)] + [("Tags", Tags)] == [("Age", Age), ("Tags", Tags)];
  }

  lemma BuildBoth(ageDef: Value, tagsDef: Value)
    requires ParsedItem("Age", ageDef) == Ok(Age) && ParsedItem("Tags", tagsDef) == Ok(Tags)
    ensures Definitions.Build([], [("Age", ageDef), ("Tags", tagsDef)], ParsedItem) == ([("Age", Age), ("Tags", Tags)], None)
  {
    BuildTags(tagsDef);
    assert [("Age", ageDef), ("Tags", tagsDef)][1..] == [("Tags", tagsDef)];
  }

  /** The document parses to a two-entry table: `Age` an int64, and `Tags`
      an array owning a string item named "TagsItems" with enum [a, b]. */
  lemma EndToEnd()
    ensures Definitions.Run([], Doc, ParsedItem) == ([("Age", Age), ("Tags", Tags)], None)
  {
    DocBlock();
    AgeParses();
    TagsParses(TagsDef);
    BuildBoth(AgeDef, TagsDef);
  }

  /** `items: {type: int}` under a parent owns an int named after the
      parent with the suffix "Items", in the default int32 format. */
  lemma NestedIntItem(parentName: string)
    ensures ParsedRefOrNested(Map([("type", Str("int"))]), parentName) ==
            Ok(Nested(Item(parentName + NestedSuffix, "", IntKind(Int32))))
  {
    var v := Map([("type", Str("int"))]);
    var name := parentName + NestedSuffix;
    GetItemTypeOfTag(v, name, IntT);
    assert Dict.FirstKeyOutside(v.entries, AllowedFields(IntKind(Int32))).None?;
    assert Dict.Get(v.entries, DescriptionKey) == None && Dict.Get(v.entries, FormatKey) == None;
  }

  /** `items: "Foo"` without the '#' is neither a mapping nor a reference. */
  lemma BareNameIsNoReference(parentName: string)
    ensures ParsedRefOrNested(Str("Foo"), parentName) ==
            Err(ParsingError("items must be an object or a reference, got Foo", parentName))
  {
    assert !Utils.IsReference(Str("Foo"));
    assert ParsedRefOrNested(Str("Foo"), parentName) == Err(ParsingError(RefOrNestedMsg(Str("Foo")), parentName));
    assert Show(Str("Foo")) == "Foo";
    assert RefOrNestedMsg(Str("Foo")) == "items must be an object or a reference, got " + "Foo";
    assert "items must be an object or a reference, got " + "Foo" == "items must be an object or a reference, got Foo";
  }
}
