/** What the middle revision's item parsing promises, stated over the
    specification functions of `ModelsV2`. */
module ModelsV2Properties {
  import opened Outcomes
  import opened Yaml
  import opened ItemTypes
  import Dict
  import Utils
  import opened TypeField
  import opened ModelsV2

  // ---------------------------------------------------------------------
  // The allowed-field check

  /** The error raised by the allowed-field check of item `name`. */
  ghost predicate UnknownFieldAt(r: Result<Item>, name: string) {
    r.Err? && r.error.ParsingError? && r.error.context == "" && IsUnknownFieldMsg(name, r.error.msg)
  }

  lemma DescriptionNotUnknown(name: string)
    ensures !IsUnknownFieldMsg(name, DescriptionMsg(name))
  {
    var msg := DescriptionMsg(name);
    if |UnknownFieldPrefix(name)| < |msg| {
      assert msg[..|UnknownFieldPrefix(name)|][|name| + 1] == msg[|name| + 1] == 'd';
      assert UnknownFieldPrefix(name)[|name| + 1] == 'h';
    }
  }

  lemma EnumListNotUnknown(name: string)
    ensures !IsUnknownFieldMsg(name, EnumListMsg(name))
  {
    var msg := EnumListMsg(name);
    assert msg[|msg| - 1] == 's';
  }

  /** A failed format lookup is reported in the item's context; only for
      the empty name does that context coincide with the empty one, and
      then the message starts differently. */
  lemma FormatErrorNotUnknown(name: string, v: Value)
    ensures name == "" ==> !IsUnknownFieldMsg(name, Utils.InvalidValueMsg(FormatKey, v))
  {
    var msg := Utils.InvalidValueMsg(FormatKey, v);
    if name == "" && |UnknownFieldPrefix(name)| < |msg| {
      assert msg[..|UnknownFieldPrefix(name)|][0] == msg[0] == 'f';
      assert UnknownFieldPrefix(name)[0] == ' ';
    }
  }

  /** `ModelItem.parse` fails with an unknown-field error exactly when some
      key is not allowed; every other error is the description error. */
  lemma CommonErrors(item: Item, fields: seq<(string, Value)>)
    ensures var r := ParsedCommon(item, fields);
            && (r.Err? ==> r.error.ParsingError? && r.error.context == "")
            && (UnknownFieldAt(r, item.name) <==> Dict.FirstKeyOutside(fields, AllowedFields(item.kind)).Some?)
  {
    DescriptionNotUnknown(item.name);
    match Dict.FirstKeyOutside(fields, AllowedFields(item.kind))
    case Some(i) =>
      var prefix := UnknownFieldPrefix(item.name);
      assert (prefix + fields[i].0 + "'")[..|prefix|] == prefix;
    case None =>
  }

  /** Past the allowed-field check, no error of `parse` is an unknown-field
      error of the item. */
  lemma KindErrors(item: Item, fields: seq<(string, Value)>)
    requires ParsedCommon(item, fields).Ok?
    ensures !UnknownFieldAt(Parsed(item, fields), item.name)
  {
    match item.kind
    case IntKind(_) => IntNotUnknown(item, fields);
    case NumberKind(_) => NumberNotUnknown(item, fields);
    case StringKind(_) => EnumListNotUnknown(item.name);
    case _ =>
  }

  lemma IntNotUnknown(item: Item, fields: seq<(string, Value)>)
    requires item.kind.IntKind? && ParsedCommon(item, fields).Ok?
    ensures !UnknownFieldAt(ParsedInt(item, fields), item.name)
  {
    if Dict.Get(fields, FormatKey).Some? {
      IntFormatStep(item, fields);
      FormatErrorNotUnknown(item.name, Dict.Get(fields, FormatKey).value);
    }
  }

  lemma NumberNotUnknown(item: Item, fields: seq<(string, Value)>)
    requires item.kind.NumberKind? && ParsedCommon(item, fields).Ok?
    ensures !UnknownFieldAt(ParsedNumber(item, fields), item.name)
  {
    if Dict.Get(fields, FormatKey).Some? {
      NumberFormatStep(item, fields);
      FormatErrorNotUnknown(item.name, Dict.Get(fields, FormatKey).value);
    }
  }

  /** `parse` fails with "<name> has unknown field '<k>'" exactly when some
      key lies outside the class's allowed fields, and then `k` is the
      first such key. */
  lemma UnknownField(item: Item, fields: seq<(string, Value)>)
    ensures (exists i :: 0 <= i < |fields| && fields[i].0 !in AllowedFields(item.kind))
            <==> UnknownFieldAt(Parsed(item, fields), item.name)
    ensures forall i :: Dict.FirstKeyOutside(fields, AllowedFields(item.kind)) == Some(i) ==>
              Parsed(item, fields) == Err(ParsingError(UnknownFieldMsg(item.name, fields[i].0), ""))
  {
    CommonErrors(item, fields);
    if ParsedCommon(item, fields).Ok? {
      KindErrors(item, fields);
    }
  }

  /** Booleans, arrays and objects read nothing beyond the common fields:
      any key other than `type` and `description` is unknown, and the
      class's own fields keep their defaults. */
  lemma StubKinds(item: Item, fields: seq<(string, Value)>)
    requires item.kind.BoolKind? || item.kind.ArrayKind? || item.kind.ObjectKind?
    ensures AllowedFields(item.kind) == [TypeKey, DescriptionKey]
    ensures Parsed(item, fields).Ok? ==> Parsed(item, fields).value.kind == item.kind
    ensures (exists i :: 0 <= i < |fields| && fields[i].0 != TypeKey && fields[i].0 != DescriptionKey) ==>
              UnknownFieldAt(Parsed(item, fields), item.name)
  {
    UnknownField(item, fields);
  }

  // ---------------------------------------------------------------------
  // The fields of each class

  /** A string `description` is stored verbatim, any other value fails, and
      without one the description is left as it was. */
  lemma Description(item: Item, fields: seq<(string, Value)>)
    requires Dict.FirstKeyOutside(fields, AllowedFields(item.kind)).None?
    ensures Dict.Get(fields, DescriptionKey).None? && Parsed(item, fields).Ok? ==>
              Parsed(item, fields).value.description == item.description
    ensures Dict.Get(fields, DescriptionKey).Some? && Dict.Get(fields, DescriptionKey).value.Str? && Parsed(item, fields).Ok? ==>
              Parsed(item, fields).value.description == Dict.Get(fields, DescriptionKey).value.s
    ensures Dict.Get(fields, DescriptionKey).Some? && !Dict.Get(fields, DescriptionKey).value.Str? ==>
              Parsed(item, fields) == Err(ParsingError(DescriptionMsg(item.name), ""))
  {
    CommonFirst(item, fields);
  }

  /** Every class runs `ModelItem.parse` first: its error is the error of
      the whole parse, and after it the description is never touched. */
  lemma CommonFirst(item: Item, fields: seq<(string, Value)>)
    ensures ParsedCommon(item, fields).Err? ==> Parsed(item, fields) == ParsedCommon(item, fields)
    ensures Parsed(item, fields).Ok? ==>
              ParsedCommon(item, fields).Ok? &&
              Parsed(item, fields).value.description == ParsedCommon(item, fields).value.description
  {
    match item.kind
    case IntKind(_) =>
    case NumberKind(_) =>
    case StringKind(_) =>
    case _ =>
  }

  /** Without `format` an int keeps its format; the value string of a
      format selects that format; anything else fails in the item's
      context. */
  lemma IntFormat(item: Item, fields: seq<(string, Value)>, t: IntType)
    requires item.kind.IntKind? && ParsedCommon(item, fields).Ok?
    ensures Dict.Get(fields, FormatKey).None? ==> ParsedInt(item, fields) == ParsedCommon(item, fields)
    ensures Dict.Get(fields, FormatKey) == Some(Str(IntTypeName(t))) ==>
              ParsedInt(item, fields) == Ok(ParsedCommon(item, fields).value.(kind := IntKind(t)))
    ensures Dict.Get(fields, FormatKey).Some? && (forall u :: Dict.Get(fields, FormatKey).value != Str(IntTypeName(u))) ==>
              ParsedInt(item, fields) ==
              Err(ParsingError(Utils.InvalidValueMsg(FormatKey, Dict.Get(fields, FormatKey).value), item.name))
  {
    var format := Dict.Get(fields, FormatKey);
    if format.Some? {
      IntFormatStep(item, fields);
      if format.value == Str(IntTypeName(t)) {
        TablesDistinct();
        Utils.ParseEnumMember(IntTypes, IntTypeIndex(t), FormatKey, item.name);
      } else if forall u :: format.value != Str(IntTypeName(u)) {
        TablesMatchNames();
        assert forall i :: 0 <= i < |IntTypes| ==> format.value != Str(IntTypes[i].0);
      }
    }
  }

  lemma IntFormatStep(item: Item, fields: seq<(string, Value)>)
    requires item.kind.IntKind? && ParsedCommon(item, fields).Ok? && Dict.Get(fields, FormatKey).Some?
    ensures var e := Utils.ParseEnum(Dict.Get(fields, FormatKey).value, IntTypes, FormatKey, item.name);
            ParsedInt(item, fields) ==
              if e.Ok? then Ok(ParsedCommon(item, fields).value.(kind := IntKind(e.value))) else Err(e.error)
  {
  }

  /** Without `format` a number keeps its format; `float` and `double`
      select theirs; anything else fails in the item's context. */
  lemma NumberFormat(item: Item, fields: seq<(string, Value)>, t: NumberType)
    requires item.kind.NumberKind? && ParsedCommon(item, fields).Ok?
    ensures Dict.Get(fields, FormatKey).None? ==> ParsedNumber(item, fields) == ParsedCommon(item, fields)
    ensures Dict.Get(fields, FormatKey) == Some(Str(NumberTypeName(t))) ==>
              ParsedNumber(item, fields) == Ok(ParsedCommon(item, fields).value.(kind := NumberKind(t)))
    ensures Dict.Get(fields, FormatKey).Some? && (forall u :: Dict.Get(fields, FormatKey).value != Str(NumberTypeName(u))) ==>
              ParsedNumber(item, fields) ==
              Err(ParsingError(Utils.InvalidValueMsg(FormatKey, Dict.Get(fields, FormatKey).value), item.name))
  {
    var format := Dict.Get(fields, FormatKey);
    if format.Some? {
      NumberFormatStep(item, fields);
      if format.value == Str(NumberTypeName(t)) {
        TablesDistinct();
        Utils.ParseEnumMember(NumberTypes, NumberTypeIndex(t), FormatKey, item.name);
      } else if forall u :: format.value != Str(NumberTypeName(u)) {
        TablesMatchNames();
        assert forall i :: 0 <= i < |NumberTypes| ==> format.value != Str(NumberTypes[i].0);
      }
    }
  }

  lemma NumberFormatStep(item: Item, fields: seq<(string, Value)>)
    requires item.kind.NumberKind? && ParsedCommon(item, fields).Ok? && Dict.Get(fields, FormatKey).Some?
    ensures var e := Utils.ParseEnum(Dict.Get(fields, FormatKey).value, NumberTypes, FormatKey, item.name);
            ParsedNumber(item, fields) ==
              if e.Ok? then Ok(ParsedCommon(item, fields).value.(kind := NumberKind(e.value))) else Err(e.error)
  {
  }

  /** `enum`: absent leaves the item as it was; a falsy value is "empty
      enum" (checked first); a non-list or a list with a non-string fails;
      a list of strings is kept verbatim and in order. */
  lemma StringEnum(item: Item, fields: seq<(string, Value)>)
    requires item.kind.StringKind? && ParsedCommon(item, fields).Ok?
    ensures Dict.Get(fields, EnumKey).None? ==> ParsedString(item, fields) == ParsedCommon(item, fields)
    ensures Dict.Get(fields, EnumKey).Some? && Falsy(Dict.Get(fields, EnumKey).value) ==>
              ParsedString(item, fields) == Err(ParsingError(EmptyEnumMsg(item.name), ""))
    ensures Dict.Get(fields, EnumKey).Some? ==>
              var e := Dict.Get(fields, EnumKey).value;
              !Falsy(e) && (!e.List? || exists i :: 0 <= i < |e.items| && !e.items[i].Str?) ==>
                ParsedString(item, fields) == Err(ParsingError(EnumListMsg(item.name), ""))
    ensures Dict.Get(fields, EnumKey).Some? ==>
              var e := Dict.Get(fields, EnumKey).value;
              !Falsy(e) && e.List? && (forall i :: 0 <= i < |e.items| ==> e.items[i].Str?) ==>
                && ParsedString(item, fields).Ok?
                && var list := ParsedString(item, fields).value.kind.enumList;
                && list.Some? && |list.value| == |e.items|
                && forall i :: 0 <= i < |e.items| ==> e.items[i] == Str(list.value[i])
  {
  }
}
