/** The cases of the middle revision's parametrised tests
    (tests/test_parser.py), one lemma per test case, each stating the
    outcome the test expects. A Python set such as `{'field'}` iterates
    over its elements the way a mapping iterates over its keys, so it is
    given here as a mapping with that key. */
module ScenariosV2 {
  import opened Outcomes
  import opened Yaml
  import opened ItemTypes
  import Dict
  import Utils
  import opened TypeField
  import opened ModelsV2
  import ModelsV2Properties

  const Base: Item := Item("Item", "", BaseKind)
  const Integer: Item := Item("Integer", "", IntKind(Int32))
  const Number: Item := Item("Integer", "", NumberKind(Float))
  const Text: Item := Item("String", "", StringKind(None))

  // test_parse_item

  lemma ItemEmpty()
    ensures Parsed(Base, []) == Ok(Base)
  {
  }

  lemma ItemWithDesc()
    ensures Parsed(Base, [("description", Str("desc"))]) == Ok(Base.(description := "desc"))
  {
    assert Dict.Keys([("description", Str("desc"))]) == [DescriptionKey];
  }

  lemma ItemBadDesc()
    ensures Parsed(Base, [("description", Int(1))]) == Err(ParsingError(DescriptionMsg("Item"), ""))
  {
    assert Dict.Keys([("description", Int(1))]) == [DescriptionKey];
  }

  lemma ItemExtraField()
    ensures Parsed(Base, [("field", Null)]) == Err(ParsingError(UnknownFieldMsg("Item", "field"), ""))
  {
    assert "field" !in AllowedFields(BaseKind);
  }

  // test_parse_int

  lemma IntEmpty()
    ensures Parsed(Integer, []) == Ok(Integer)
  {
  }

  lemma IntFormats(t: IntType)
    ensures Parsed(Integer, [("format", Str(IntTypeName(t)))]) == Ok(Integer.(kind := IntKind(t)))
  {
    var fields := [("format", Str(IntTypeName(t)))];
    assert Dict.Keys(fields) == [FormatKey];
    ModelsV2Properties.IntFormat(Integer, fields, t);
  }

  lemma IntInt32()
    ensures Parsed(Integer, [("format", Str("int32"))]) == Ok(Integer)
  {
    IntFormats(Int32);
  }

  lemma IntInt64()
    ensures Parsed(Integer, [("format", Str("int64"))]).Ok?
    ensures Parsed(Integer, [("format", Str("int64"))]).value.kind.intType == Int64
  {
    IntFormats(Int64);
    assert IntTypeName(Int64) == "int64";
  }

  lemma IntBadFormat()
    ensures Parsed(Integer, [("format", Str("int33"))]) ==
            Err(ParsingError(Utils.InvalidValueMsg("format", Str("int33")), "Integer"))
  {
    var fields := [("format", Str("int33"))];
    assert Dict.Keys(fields) == [FormatKey];
    ModelsV2Properties.IntFormat(Integer, fields, Int32);
  }

  lemma IntExtraField()
    ensures Parsed(Integer, [("extra", Str("value"))]) == Err(ParsingError(UnknownFieldMsg("Integer", "extra"), ""))
  {
    assert "extra" !in AllowedFields(Integer.kind);
  }

  // test_parse_number

  lemma NumberEmpty()
    ensures Parsed(Number, []) == Ok(Number)
  {
  }

  lemma NumberFormats(t: NumberType)
    ensures Parsed(Number, [("format", Str(NumberTypeName(t)))]) == Ok(Number.(kind := NumberKind(t)))
  {
    var fields := [("format", Str(NumberTypeName(t)))];
    assert Dict.Keys(fields) == [FormatKey];
    ModelsV2Properties.NumberFormat(Number, fields, t);
  }

  lemma NumberFloat()
    ensures Parsed(Number, [("format", Str("float"))]) == Ok(Number)
  {
    NumberFormats(Float);
  }

  lemma NumberDouble()
    ensures Parsed(Number, [("format", Str("double"))]).Ok?
    ensures Parsed(Number, [("format", Str("double"))]).value.kind.numberType == Double
  {
    NumberFormats(Double);
  }

  lemma NumberBadFormat()
    ensures Parsed(Number, [("format", Str("int"))]) ==
            Err(ParsingError(Utils.InvalidValueMsg("format", Str("int")), "Integer"))
  {
    var fields := [("format", Str("int"))];
    assert Dict.Keys(fields) == [FormatKey];
    ModelsV2Properties.NumberFormat(Number, fields, Float);
  }

  lemma NumberExtraField()
    ensures Parsed(Number, [("extra", Str("value"))]) == Err(ParsingError(UnknownFieldMsg("Integer", "extra"), ""))
  {
    assert "extra" !in AllowedFields(Number.kind);
  }

  // test_parse_string

  lemma StringEmpty()
    ensures Parsed(Text, []) == Ok(Text)
  {
  }

  lemma StringEnumList()
    ensures Parsed(Text, [("enum", List([Str("value1"), Str("value2")]))]) ==
            Ok(Text.(kind := StringKind(Some(["value1", "value2"]))))
  {
    assert Dict.Keys([("enum", List([Str("value1"), Str("value2")]))]) == [EnumKey];
    assert Strings([Str("value1"), Str("value2")]) == ["value1", "value2"];
  }

  lemma StringEmptyEnum()
    ensures Parsed(Text, [("enum", List([]))]) == Err(ParsingError(EmptyEnumMsg("String"), ""))
  {
    assert Dict.Keys([("enum", List([]))]) == [EnumKey];
  }

  lemma StringBadEnum()
    ensures Parsed(Text, [("enum", Map([]))]) == Err(ParsingError(EmptyEnumMsg("String"), ""))
  {
    assert Dict.Keys([("enum", Map([]))]) == [EnumKey];
  }

  lemma StringBadEnumItems()
    ensures Parsed(Text, [("enum", List([Int(1), Int(2), Int(3)]))]) == Err(ParsingError(EnumListMsg("String"), ""))
  {
    assert Dict.Keys([("enum", List([Int(1), Int(2), Int(3)]))]) == [EnumKey];
    assert !List([Int(1), Int(2), Int(3)]).items[0].Str?;
  }

  lemma StringExtra()
    ensures Parsed(Text, [("enum", Str("value")), ("extra", Str("value"))]) ==
            Err(ParsingError(UnknownFieldMsg("String", "extra"), ""))
  {
    var fields := [("enum", Str("value")), ("extra", Str("value"))];
    assert fields[0].0 in AllowedFields(Text.kind) && fields[1].0 !in AllowedFields(Text.kind);
    assert Dict.FirstKeyOutside(fields, AllowedFields(Text.kind)) == Some(1);
  }
}
