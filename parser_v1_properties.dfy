/** What the oldest revision's `Parser` promises about a single
    definition; the registration loop itself is `Definitions`. */
module ParserV1Properties {
  import opened Outcomes
  import opened Yaml
  import opened ItemTypes
  import Dict
  import opened ModelsV1
  import opened ParserV1

  /** The tag `item` passes the type lookup but has no factory. */
  lemma ItemTagNotCreatable(name: string, v: Value)
    requires v.Map? && Dict.Get(v.entries, TypeKey) == Some(Str("item"))
    ensures ParsedItem(name, v) == Err(RuntimeError(UnknownTypeMsg(ItemT)))
  {
    GetItemTypeOfTag(v, name, ItemT);
  }

  /** A `type` that is no tag string fails naming the definition; for a
      definition whose name is empty the message template itself fails. */
  lemma InvalidTag(name: string, v: Value)
    requires v.Map? && Dict.Get(v.entries, TypeKey).Some?
    requires forall t :: Dict.Get(v.entries, TypeKey).value != Str(TypeName(t))
    ensures name != "" ==>
              ParsedItem(name, v) == Err(ParsingError(InvalidValueMsg(TypeKey, name, Dict.Get(v.entries, TypeKey).value), ""))
    ensures name == "" ==> ParsedItem(name, v) == Err(ValueError(UnmatchedBraceMsg))
  {
    NoSuchTag(Dict.Get(v.entries, TypeKey).value, name);
    TagLookup(name, v);
    TagFails(name, v);
  }

  /** A value that is no tag string matches no member of the tag table. */
  lemma NoSuchTag(tag: Value, name: string)
    requires forall t :: tag != Str(TypeName(t))
    ensures ParseEnum(tag, ModelItemTypes, TypeKey, name).Err?
  {
    TablesMatchNames();
    assert forall i :: 0 <= i < |ModelItemTypes| ==> tag != Str(ModelItemTypes[i].0);
  }

  /** A failed type lookup is the outcome of the whole definition. */
  lemma TagFails(name: string, v: Value)
    requires GetItemType(v, name).Err?
    ensures ParsedItem(name, v) == Err(GetItemType(v, name).error)
  {
  }

  /** With a `type` key present, the type lookup is the enum lookup of its
      value. */
  lemma TagLookup(name: string, v: Value)
    requires v.Map? && Dict.Get(v.entries, TypeKey).Some?
    ensures GetItemType(v, name) == ParseEnum(Dict.Get(v.entries, TypeKey).value, ModelItemTypes, TypeKey, name)
  {
  }

  /** A definition with a tag of a class that reads no field of its own is
      that class's new item with the description copied, whatever else the
      mapping holds: there is no allowed-field check and no type check on
      the description. */
  lemma OtherKeysIgnored(name: string, v: Value, t: ModelItemType)
    requires t in {BoolT, StringT, ArrayT, ObjectT}
    requires v.Map? && Dict.Get(v.entries, TypeKey) == Some(Str(TypeName(t)))
    ensures ParsedItem(name, v) == Ok(NewItem(name, t).(description := ParsedDescription(v.entries)))
  {
    GetItemTypeOfTag(v, name, t);
    ClassStep(name, v, t);
  }

  /** Once the tag is read, the definition is the new item of that class
      with the description copied, read further only for an int or a
      number. */
  lemma ClassStep(name: string, v: Value, t: ModelItemType)
    requires GetItemType(v, name) == Ok(t) && t != ItemT
    ensures var item := NewItem(name, t).(description := ParsedDescription(v.entries));
            ParsedItem(name, v) ==
              if t == IntT then ParsedInt(item, v.entries)
              else if t == NumberT then ParsedNumber(item, v.entries)
              else Ok(item)
  {
  }

  /** The description of a parsed definition is its `description` value
      as it stands in the document, and None when it has none. */
  lemma DescriptionCopied(name: string, v: Value)
    requires ParsedItem(name, v).Ok?
    ensures v.Map?
    ensures Dict.Get(v.entries, DescriptionKey).Some? ==>
              ParsedItem(name, v).value.description == Dict.Get(v.entries, DescriptionKey).value
    ensures Dict.Get(v.entries, DescriptionKey).None? ==> ParsedItem(name, v).value.description == Null
  {
  }

  /** An int definition is a new int with its description copied, then
      read by `__parse_int`; likewise a number definition. */
  lemma FormatSteps(name: string, v: Value)
    requires v.Map?
    ensures Dict.Get(v.entries, TypeKey) == Some(Str("int")) ==>
              ParsedItem(name, v) == ParsedInt(Item(name, ParsedDescription(v.entries), IntKind(Int32)), v.entries)
    ensures Dict.Get(v.entries, TypeKey) == Some(Str("number")) ==>
              ParsedItem(name, v) == ParsedNumber(Item(name, ParsedDescription(v.entries), NumberKind(Float)), v.entries)
  {
    if Dict.Get(v.entries, TypeKey) == Some(Str("int")) {
      GetItemTypeOfTag(v, name, IntT);
      ClassStep(name, v, IntT);
    }
    if Dict.Get(v.entries, TypeKey) == Some(Str("number")) {
      GetItemTypeOfTag(v, name, NumberT);
      ClassStep(name, v, NumberT);
    }
  }

  /** `__parse_int`: without `format` the int keeps its format; the value
      string of a format selects that format; any other value fails,
      naming the item. */
  lemma IntFormat(item: Item, fields: seq<(string, Value)>, t: IntType)
    requires item.kind.IntKind?
    ensures Dict.Get(fields, FormatKey).None? ==> ParsedInt(item, fields) == Ok(item)
    ensures Dict.Get(fields, FormatKey) == Some(Str(IntTypeName(t))) ==>
              ParsedInt(item, fields) == Ok(item.(kind := IntKind(t)))
    ensures Dict.Get(fields, FormatKey).Some? && (forall u :: Dict.Get(fields, FormatKey).value != Str(IntTypeName(u))) ==>
              ParsedInt(item, fields).Err? &&
              (item.name != "" ==> ParsedInt(item, fields).error ==
                                   ParsingError(InvalidValueMsg(FormatKey, item.name, Dict.Get(fields, FormatKey).value), ""))
  {
    var format := Dict.Get(fields, FormatKey);
    if format.Some? {
      if format.value == Str(IntTypeName(t)) {
        TablesDistinct();
        ParseEnumMember(IntTypes, IntTypeIndex(t), FormatKey, item.name);
      } else if forall u :: format.value != Str(IntTypeName(u)) {
        TablesMatchNames();
        assert forall i :: 0 <= i < |IntTypes| ==> format.value != Str(IntTypes[i].0);
      }
    }
  }

  /** `__parse_number`: without `format` the number keeps its format;
      `float` and `double` select theirs; any other value fails, naming the
      item. */
  lemma NumberFormat(item: Item, fields: seq<(string, Value)>, t: NumberType)
    requires item.kind.NumberKind?
    ensures Dict.Get(fields, FormatKey).None? ==> ParsedNumber(item, fields) == Ok(item)
    ensures Dict.Get(fields, FormatKey) == Some(Str(NumberTypeName(t))) ==>
              ParsedNumber(item, fields) == Ok(item.(kind := NumberKind(t)))
    ensures Dict.Get(fields, FormatKey).Some? && (forall u :: Dict.Get(fields, FormatKey).value != Str(NumberTypeName(u))) ==>
              ParsedNumber(item, fields).Err? &&
              (item.name != "" ==> ParsedNumber(item, fields).error ==
                                   ParsingError(InvalidValueMsg(FormatKey, item.name, Dict.Get(fields, FormatKey).value), ""))
  {
    var format := Dict.Get(fields, FormatKey);
    if format.Some? {
      if format.value == Str(NumberTypeName(t)) {
        TablesDistinct();
        ParseEnumMember(NumberTypes, NumberTypeIndex(t), FormatKey, item.name);
      } else if forall u :: format.value != Str(NumberTypeName(u)) {
        TablesMatchNames();
        assert forall i :: 0 <= i < |NumberTypes| ==> format.value != Str(NumberTypes[i].0);
      }
    }
  }

  /** A parsed definition is named by its key and has the class its `type`
      names. */
  lemma ParsedItemNameAndType(name: string, v: Value)
    requires ParsedItem(name, v).Ok?
    ensures ParsedItem(name, v).value.name == name
    ensures GetItemType(v, name).Ok? && GetItemType(v, name).value != ItemT
    ensures GetType(ParsedItem(name, v).value.kind) == GetItemType(v, name).value
  {
  }

  /** A new item of each class holds the given name, an empty description
      and the class's defaults. */
  lemma NewItemDefaults(name: string)
    ensures NewItem(name, IntT) == Item(name, Str(""), IntKind(Int32))
    ensures NewItem(name, NumberT) == Item(name, Str(""), NumberKind(Float))
    ensures NewItem(name, BoolT) == Item(name, Str(""), BoolKind)
    ensures NewItem(name, StringT) == Item(name, Str(""), StringKind(None))
    ensures NewItem(name, ArrayT) == Item(name, Str(""), ArrayKind(None, Array))
    ensures NewItem(name, ObjectT) == Item(name, Str(""), ObjectKind([], []))
  {
  }
}
