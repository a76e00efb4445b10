/** What the newest revision's item parsing promises, stated over the
    specification functions of `ModelsV3`. */
module ModelsV3Properties {
  import opened Outcomes
  import opened Yaml
  import opened ItemTypes
  import Dict
  import Utils
  import opened TypeField
  import opened ModelsV3

  /** An item reference is a reference or owns an item, never both. */
  lemma ItemRefExclusive(r: ItemRef)
    ensures r.IsRef() != r.IsItem()
    ensures r.IsRef() ==> r.GetItem() == None
    ensures r.IsItem() ==> r.GetRef() == None
  {
  }

  // ---------------------------------------------------------------------
  // Type tags and the factory

  /** The tag `item` passes the type lookup but has no factory, so a
      definition of that type fails with a RuntimeError. */
  lemma ItemTagNotCreatable(name: string, v: Value)
    requires v.Map? && Dict.Get(v.entries, TypeKey) == Some(Str("item"))
    ensures ParsedItem(name, v) == Err(RuntimeError(UnknownTypeMsg(ItemT)))
  {
    GetItemTypeOfTag(v, name, ItemT);
  }

  /** A parsed definition is named by its key and has the class its `type`
      names. */
  lemma ParsedItemNameAndType(name: string, v: Value)
    requires ParsedItem(name, v).Ok?
    ensures ParsedItem(name, v).value.name == name
    ensures GetItemType(v, name).Ok?
    ensures GetType(ParsedItem(name, v).value.kind) == GetItemType(v, name).value
    ensures v.Map? && Dict.Get(v.entries, TypeKey) == Some(Str(TypeName(GetItemType(v, name).value)))
  {
  }

  // ---------------------------------------------------------------------
  // The allowed-field check

  /** The error raised at the item's own context, when it is one. */
  ghost predicate UnknownFieldAt(r: Result<Item>, name: string) {
    r.Err? && r.error.ParsingError? && r.error.context == name && IsUnknownFieldMsg(r.error.msg)
  }

  /** Where an error points: the context of a parsing error is the item
      being parsed or one nested in it, whose name extends the outer name;
      an error with an empty context is never an unknown-field error. */
  ghost predicate ErrorWithin(e: Error, name: string) {
    e.ParsingError? ==>
      || (|name| <= |e.context| && e.context[..|name|] == name)
      || (e.context == "" && !IsUnknownFieldMsg(e.msg))
  }

  /** A message whose first letter is not 'u' is no unknown-field message. */
  lemma NotUnknown(msg: string)
    requires msg != [] && msg[0] != 'u'
    ensures !IsUnknownFieldMsg(msg)
  {
    if |UnknownFieldPrefix| <= |msg| {
      assert msg[..|UnknownFieldPrefix|][0] == msg[0];
    }
  }

  lemma EnumErrorNotUnknown(value: Value, enumName: string)
    ensures !IsUnknownFieldMsg(Utils.InvalidValueMsg(enumName, value))
  {
    NotUnknown(Utils.InvalidValueMsg(enumName, value));
  }

  /** `ModelItem.parse` fails with an unknown-field error exactly when some
      key is not allowed, and every other error it raises is the
      description error. */
  lemma CommonErrors(item: Item, fields: seq<(string, Value)>)
    ensures var r := ParsedCommon(item, fields);
            && (r.Err? ==> r.error.ParsingError? && r.error.context == item.name)
            && (UnknownFieldAt(r, item.name) <==> Dict.FirstKeyOutside(fields, AllowedFields(item.kind)).Some?)
  {
    NotUnknown(DescriptionMsg);
    match Dict.FirstKeyOutside(fields, AllowedFields(item.kind))
    case Some(i) =>
      assert (UnknownFieldPrefix + fields[i].0 + "'")[..|UnknownFieldPrefix|] == UnknownFieldPrefix;
    case None =>
  }

  /** A parse error points into the item parsed, and is an unknown-field
      error of that item itself only when one of its keys is not allowed. */
  lemma {:induction false} ParsedErrors(item: Item, fields: seq<(string, Value)>)
    ensures var r := Parsed(item, fields);
            && (r.Err? ==> ErrorWithin(r.error, item.name))
            && (UnknownFieldAt(r, item.name) ==> Dict.FirstKeyOutside(fields, AllowedFields(item.kind)).Some?)
    decreases Map(fields), 1, 0
  {
    CommonErrors(item, fields);
    if ParsedCommon(item, fields).Ok? {
      match item.kind
      case BaseKind =>
      case BoolKind =>
      case IntKind(_) =>
        IntErrors(item, fields);
      case NumberKind(_) =>
        NumberErrors(item, fields);
      case StringKind(_) =>
        StringErrors(item, fields);
      case ArrayKind(_, _) =>
        ArrayErrors(item, fields);
      case ObjectKind(_, _) =>
        ObjectErrors(item, fields);
    }
  }

  /** A bad `format` is reported in the item's context, and is no
      unknown-field error. */
  lemma IntErrors(item: Item, fields: seq<(string, Value)>)
    requires item.kind.IntKind? && ParsedCommon(item, fields).Ok?
    ensures var r := ParsedInt(item, fields);
            r.Err? ==> r.error.ParsingError? && r.error.context == item.name && !IsUnknownFieldMsg(r.error.msg)
  {
    if Dict.Get(fields, FormatKey).Some? {
      EnumErrorNotUnknown(Dict.Get(fields, FormatKey).value, FormatKey);
    }
  }

  lemma NumberErrors(item: Item, fields: seq<(string, Value)>)
    requires item.kind.NumberKind? && ParsedCommon(item, fields).Ok?
    ensures var r := ParsedNumber(item, fields);
            r.Err? ==> r.error.ParsingError? && r.error.context == item.name && !IsUnknownFieldMsg(r.error.msg)
  {
    if Dict.Get(fields, FormatKey).Some? {
      EnumErrorNotUnknown(Dict.Get(fields, FormatKey).value, FormatKey);
    }
  }

  /** A bad `enum` is reported in the item's context, and is no
      unknown-field error. */
  lemma StringErrors(item: Item, fields: seq<(string, Value)>)
    requires item.kind.StringKind? && ParsedCommon(item, fields).Ok?
    ensures var r := ParsedString(item, fields);
            r.Err? ==> r.error.ParsingError? && r.error.context == item.name && !IsUnknownFieldMsg(r.error.msg)
  {
    NotUnknown(EmptyEnumMsg);
    NotUnknown(EnumListMsg);
  }

  lemma {:induction false} ArrayErrors(item: Item, fields: seq<(string, Value)>)
    requires item.kind.ArrayKind? && ParsedCommon(item, fields).Ok?
    ensures var r := ParsedArray(item, fields);
            r.Err? ==> ErrorWithin(r.error, item.name) && !UnknownFieldAt(r, item.name)
    decreases Map(fields), 0, 0
  {
    NotUnknown(ItemsRequiredMsg);
    var j := Dict.IndexOf(fields, ItemsKey);
    if j.Some? && !Falsy(fields[j.value].1) {
      RefOrNestedErrors(fields[j.value].1, item.name);
      if Dict.Get(fields, ArrTypeKey).Some? {
        EnumErrorNotUnknown(Dict.Get(fields, ArrTypeKey).value, ArrTypeKey);
      }
    }
  }

  lemma {:induction false} ObjectErrors(item: Item, fields: seq<(string, Value)>)
    requires item.kind.ObjectKind? && ParsedCommon(item, fields).Ok?
    ensures var r := ParsedObject(item, fields);
            r.Err? ==> ErrorWithin(r.error, item.name) && !UnknownFieldAt(r, item.name)
    decreases Map(fields), 0, 0
  {
    NotUnknown(PropertiesRequiredMsg);
    NotUnknown(PropertiesMapMsg);
    NotUnknown(RequiredListMsg);
    var j := Dict.IndexOf(fields, PropertiesKey);
    if j.Some? {
      var props := fields[j.value].1;
      if !Falsy(props) && props.Map? {
        PropertiesErrors(item.name, props.entries, 0, item.kind.properties);
        var properties := ParsedProperties(item.name, props.entries, 0, item.kind.properties);
        if properties.Ok? {
          RequiredNamesSpec(item.name, fields, properties.value, item.kind.required);
        }
      }
    }
  }

  lemma {:induction false} PropertiesErrors(parentName: string, props: seq<(string, Value)>, i: nat,
                                            acc: seq<(string, ItemRef)>)
    requires i <= |props|
    ensures var r := ParsedProperties(parentName, props, i, acc);
            r.Err? ==> ErrorWithin(r.error, parentName)
                       && (r.error.ParsingError? && r.error.context == parentName ==> !IsUnknownFieldMsg(r.error.msg))
    decreases Map(props), 0, |props| - i
  {
    if i < |props| {
      RefOrNestedErrors(props[i].1, parentName);
      var ref := ParsedRefOrNested(props[i].1, parentName);
      if ref.Ok? {
        PropertiesErrors(parentName, props, i + 1, Dict.Set(acc, props[i].0, ref.value));
      }
    }
  }

  /** The only error of `__parse_required` is the list-of-names error. */
  lemma RequiredNamesSpec(name: string, fields: seq<(string, Value)>, properties: seq<(string, ItemRef)>,
                          acc: seq<string>)
    ensures var r := ParsedRequired(name, fields, properties, acc);
            r.Err? ==> r.error == ParsingError(RequiredListMsg, name)
  {
    match Dict.Get(fields, RequiredKey)
    case None =>
    case Some(v) =>
      if !Falsy(v) && v.List? {
        RequiredNamesOutcome(name, v.items, properties, acc);
      }
  }

  lemma {:induction false} RefOrNestedErrors(field: Value, parentName: string)
    ensures var r := ParsedRefOrNested(field, parentName);
            r.Err? ==> ErrorWithin(r.error, parentName)
                       && (r.error.ParsingError? && r.error.context == parentName ==> !IsUnknownFieldMsg(r.error.msg))
    decreases field, 3, 0
  {
    if !Utils.IsReference(field) && field.Map? {
      var nestedName := parentName + NestedSuffix;
      ParsedItemErrors(nestedName, field);
      var r := ParsedItem(nestedName, field);
      if r.Err? && r.error.ParsingError? && |nestedName| <= |r.error.context| {
        assert r.error.context[..|parentName|] == r.error.context[..|nestedName|][..|parentName|];
      }
    } else {
      var head := "items must be an object or a reference, got ";
      assert RefOrNestedMsg(field) == head + Show(field) && head[0] == 'i';
      NotUnknown(RefOrNestedMsg(field));
    }
  }

  lemma {:induction false} ParsedItemErrors(name: string, v: Value)
    ensures var r := ParsedItem(name, v);
            r.Err? ==> ErrorWithin(r.error, name)
    decreases v, 2, 0
  {
    NotUnknown(TypeRequiredMsg(name));
    match GetItemType(v, name)
    case Err(e) =>
      if Contains(v, TypeKey) == Ok(true) && Index(v, TypeKey).Ok? {
        EnumErrorNotUnknown(Index(v, TypeKey).value, TypeKey);
      }
    case Ok(t) =>
      match CreateItem(name, t)
      case Err(e) =>
      case Ok(item) =>
        ParsedErrors(item, v.entries);
  }

  /** `parse` fails with "unknown field '<k>'" in the item's own context
      exactly when some key lies outside the class's allowed fields, and
      then `k` is the first such key. Nested items report their own
      unknown fields in their own context. */
  lemma UnknownField(item: Item, fields: seq<(string, Value)>)
    ensures (exists i :: 0 <= i < |fields| && fields[i].0 !in AllowedFields(item.kind))
            <==> UnknownFieldAt(Parsed(item, fields), item.name)
    ensures forall i :: Dict.FirstKeyOutside(fields, AllowedFields(item.kind)) == Some(i) ==>
              Parsed(item, fields) == Err(ParsingError(UnknownFieldMsg(fields[i].0), item.name))
  {
    ParsedErrors(item, fields);
    CommonErrors(item, fields);
  }

  // ---------------------------------------------------------------------
  // The fields of each class

  /** A string `description` is stored verbatim, any other value fails, and
      without one the description is left as it was. */
  lemma Description(item: Item, fields: seq<(string, Value)>)
    requires Dict.FirstKeyOutside(fields, AllowedFields(item.kind)).None?
    ensures Dict.Get(fields, DescriptionKey).None? && Parsed(item, fields).Ok? ==>
              Parsed(item, fields).value.description == item.description
    ensures Dict.Get(fields, DescriptionKey).Some? && Dict.Get(fields, DescriptionKey).value.Str? && Parsed(item, fields).Ok? ==>
              Parsed(item, fields).value.description == Dict.Get(fields, DescriptionKey).value.s
    ensures Dict.Get(fields, DescriptionKey).Some? && !Dict.Get(fields, DescriptionKey).value.Str? ==>
              Parsed(item, fields) == Err(ParsingError(DescriptionMsg, item.name))
  {
    CommonFirst(item, fields);
  }

  /** Every class runs `ModelItem.parse` first: its error is the error of
      the whole parse, and after it the description is never touched. */
  lemma CommonFirst(item: Item, fields: seq<(string, Value)>)
    ensures ParsedCommon(item, fields).Err? ==> Parsed(item, fields) == ParsedCommon(item, fields)
    ensures Parsed(item, fields).Ok? ==>
              ParsedCommon(item, fields).Ok? &&
              Parsed(item, fields).value.description == ParsedCommon(item, fields).value.description
  {
    match item.kind
    case ArrayKind(_, _) => ArrayKeepsDescription(item, fields);
    case ObjectKind(_, _) => ObjectKeepsDescription(item, fields);
    case _ =>
  }

  lemma ArrayKeepsDescription(item: Item, fields: seq<(string, Value)>)
    requires item.kind.ArrayKind?
    ensures ParsedArray(item, fields).Ok? ==>
              ParsedCommon(item, fields).Ok? &&
              ParsedArray(item, fields).value.description == ParsedCommon(item, fields).value.description
  {
  }

  lemma ObjectKeepsDescription(item: Item, fields: seq<(string, Value)>)
    requires item.kind.ObjectKind?
    ensures ParsedObject(item, fields).Ok? ==>
              ParsedCommon(item, fields).Ok? &&
              ParsedObject(item, fields).value.description == ParsedCommon(item, fields).value.description
  {
  }

  /** Without `format` an int keeps its format; the value string of a
      format selects that format; anything else fails in the item's
      context. */
  lemma IntFormat(item: Item, fields: seq<(string, Value)>, t: IntType)
    requires item.kind.IntKind? && ParsedCommon(item, fields).Ok?
    ensures Dict.Get(fields, FormatKey).None? ==> ParsedInt(item, fields) == ParsedCommon(item, fields)
    ensures Dict.Get(fields, FormatKey) == Some(Str(IntTypeName(t))) ==>
              ParsedInt(item, fields) == Ok(ParsedCommon(item, fields).value.(kind := IntKind(t)))
    ensures Dict.Get(fields, FormatKey).Some? && (forall u :: Dict.Get(fields, FormatKey).value != Str(IntTypeName(u))) ==>
              ParsedInt(item, fields) ==
              Err(ParsingError(Utils.InvalidValueMsg(FormatKey, Dict.Get(fields, FormatKey).value), item.name))
  {
    var format := Dict.Get(fields, FormatKey);
    if format.Some? {
      IntFormatStep(item, fields);
      if format.value == Str(IntTypeName(t)) {
        TablesDistinct();
        Utils.ParseEnumMember(IntTypes, IntTypeIndex(t), FormatKey, item.name);
      } else if forall u :: format.value != Str(IntTypeName(u)) {
        TablesMatchNames();
        assert forall i :: 0 <= i < |IntTypes| ==> format.value != Str(IntTypes[i].0);
      }
    }
  }

  lemma IntFormatStep(item: Item, fields: seq<(string, Value)>)
    requires item.kind.IntKind? && ParsedCommon(item, fields).Ok? && Dict.Get(fields, FormatKey).Some?
    ensures var e := Utils.ParseEnum(Dict.Get(fields, FormatKey).value, IntTypes, FormatKey, item.name);
            ParsedInt(item, fields) ==
              if e.Ok? then Ok(ParsedCommon(item, fields).value.(kind := IntKind(e.value))) else Err(e.error)
  {
  }

  /** Without `format` a number keeps its format; `float` and `double`
      select theirs; anything else fails in the item's context. */
  lemma NumberFormat(item: Item, fields: seq<(string, Value)>, t: NumberType)
    requires item.kind.NumberKind? && ParsedCommon(item, fields).Ok?
    ensures Dict.Get(fields, FormatKey).None? ==> ParsedNumber(item, fields) == ParsedCommon(item, fields)
    ensures Dict.Get(fields, FormatKey) == Some(Str(NumberTypeName(t))) ==>
              ParsedNumber(item, fields) == Ok(ParsedCommon(item, fields).value.(kind := NumberKind(t)))
    ensures Dict.Get(fields, FormatKey).Some? && (forall u :: Dict.Get(fields, FormatKey).value != Str(NumberTypeName(u))) ==>
              ParsedNumber(item, fields) ==
              Err(ParsingError(Utils.InvalidValueMsg(FormatKey, Dict.Get(fields, FormatKey).value), item.name))
  {
    var format := Dict.Get(fields, FormatKey);
    if format.Some? {
      NumberFormatStep(item, fields);
      if format.value == Str(NumberTypeName(t)) {
        TablesDistinct();
        Utils.ParseEnumMember(NumberTypes, NumberTypeIndex(t), FormatKey, item.name);
      } else if forall u :: format.value != Str(NumberTypeName(u)) {
        TablesMatchNames();
        assert forall i :: 0 <= i < |NumberTypes| ==> format.value != Str(NumberTypes[i].0);
      }
    }
  }

  lemma NumberFormatStep(item: Item, fields: seq<(string, Value)>)
    requires item.kind.NumberKind? && ParsedCommon(item, fields).Ok? && Dict.Get(fields, FormatKey).Some?
    ensures var e := Utils.ParseEnum(Dict.Get(fields, FormatKey).value, NumberTypes, FormatKey, item.name);
            ParsedNumber(item, fields) ==
              if e.Ok? then Ok(ParsedCommon(item, fields).value.(kind := NumberKind(e.value))) else Err(e.error)
  {
  }

  /** `enum`: absent leaves the item as it was; a falsy value is "empty
      enum" (checked first); a non-list or a list with a non-string fails;
      a list of strings is kept verbatim and in order. */
  lemma StringEnum(item: Item, fields: seq<(string, Value)>)
    requires item.kind.StringKind? && ParsedCommon(item, fields).Ok?
    ensures Dict.Get(fields, EnumKey).None? ==> ParsedString(item, fields) == ParsedCommon(item, fields)
    ensures Dict.Get(fields, EnumKey).Some? && Falsy(Dict.Get(fields, EnumKey).value) ==>
              ParsedString(item, fields) == Err(ParsingError(EmptyEnumMsg, item.name))
    ensures Dict.Get(fields, EnumKey).Some? ==>
              var e := Dict.Get(fields, EnumKey).value;
              !Falsy(e) && (!e.List? || exists i :: 0 <= i < |e.items| && !e.items[i].Str?) ==>
                ParsedString(item, fields) == Err(ParsingError(EnumListMsg, item.name))
    ensures Dict.Get(fields, EnumKey).Some? ==>
              var e := Dict.Get(fields, EnumKey).value;
              !Falsy(e) && e.List? && (forall i :: 0 <= i < |e.items| ==> e.items[i].Str?) ==>
                && ParsedString(item, fields).Ok?
                && var list := ParsedString(item, fields).value.kind.enumList;
                && list.Some? && |list.value| == |e.items|
                && forall i :: 0 <= i < |e.items| ==> e.items[i] == Str(list.value[i])
  {
  }

  /** `items` is required and non-empty, and checked before `array_type`;
      it becomes the element reference; `array_type` keeps its value when
      absent and otherwise selects `array` or `set`. */
  lemma ArrayFields(item: Item, fields: seq<(string, Value)>, t: ArrayType)
    requires item.kind.ArrayKind? && ParsedCommon(item, fields).Ok?
    ensures Dict.Get(fields, ItemsKey).None? || Falsy(Dict.Get(fields, ItemsKey).value) ==>
              ParsedArray(item, fields) == Err(ParsingError(ItemsRequiredMsg, item.name))
    ensures Dict.Get(fields, ItemsKey).Some? && !Falsy(Dict.Get(fields, ItemsKey).value) ==>
              var ref := ParsedRefOrNested(Dict.Get(fields, ItemsKey).value, item.name);
              var base := ParsedCommon(item, fields).value;
              && (ref.Err? ==> ParsedArray(item, fields) == Err(ref.error))
              && (ref.Ok? && Dict.Get(fields, ArrTypeKey).None? ==>
                    ParsedArray(item, fields) == Ok(base.(kind := ArrayKind(item.kind.arrayType, Some(ref.value)))))
              && (ref.Ok? && Dict.Get(fields, ArrTypeKey) == Some(Str(ArrayTypeName(t))) ==>
                    ParsedArray(item, fields) == Ok(base.(kind := ArrayKind(t, Some(ref.value)))))
              && (ref.Ok? && Dict.Get(fields, ArrTypeKey).Some? &&
                  (forall u :: Dict.Get(fields, ArrTypeKey).value != Str(ArrayTypeName(u))) ==>
                    ParsedArray(item, fields) ==
                    Err(ParsingError(Utils.InvalidValueMsg(ArrTypeKey, Dict.Get(fields, ArrTypeKey).value), item.name)))
  {
    var items := Dict.Get(fields, ItemsKey);
    var arrayType := Dict.Get(fields, ArrTypeKey);
    if items.Some? && !Falsy(items.value) && arrayType.Some? {
      if arrayType.value == Str(ArrayTypeName(t)) {
        TablesDistinct();
        Utils.ParseEnumMember(ArrayTypes, ArrayTypeIndex(t), ArrTypeKey, item.name);
      } else if forall u :: arrayType.value != Str(ArrayTypeName(u)) {
        TablesMatchNames();
        assert forall i :: 0 <= i < |ArrayTypes| ==> arrayType.value != Str(ArrayTypes[i].0);
      }
    }
  }

  /** `parse_ref_or_nested_item`: a '#' string is a reference to the name
      after the '#'; a mapping is parsed as an item named after the parent
      with the suffix "Items"; anything else fails in the parent's context. */
  lemma RefOrNested(field: Value, parentName: string)
    ensures Utils.IsReference(field) ==>
              ParsedRefOrNested(field, parentName) == Ok(Reference(field.s[1..]))
    ensures !Utils.IsReference(field) && !field.Map? ==>
              ParsedRefOrNested(field, parentName) == Err(ParsingError(RefOrNestedMsg(field), parentName))
    ensures field.Map? ==>
              && (ParsedRefOrNested(field, parentName).Ok? <==> ParsedItem(parentName + NestedSuffix, field).Ok?)
              && (ParsedRefOrNested(field, parentName).Ok? ==>
                    && ParsedRefOrNested(field, parentName).value == Nested(ParsedItem(parentName + NestedSuffix, field).value)
                    && ParsedRefOrNested(field, parentName).value.item.name == parentName + NestedSuffix)
  {
  }

  /** `__parse_required` over a list: it succeeds exactly when every element
      is the name of a property, and then appends them in order. */
  lemma RequiredNamesOutcome(name: string, xs: seq<Value>, properties: seq<(string, ItemRef)>,
                             acc: seq<string>)
    ensures RequiredNames(name, xs, properties, acc).Ok? <==>
            forall i :: 0 <= i < |xs| ==> xs[i].Str? && Dict.HasKey(properties, xs[i].s)
    ensures RequiredNames(name, xs, properties, acc).Ok? ==>
            RequiredNames(name, xs, properties, acc).value == acc + Strings(xs)
    ensures RequiredNames(name, xs, properties, acc).Err? ==>
            RequiredNames(name, xs, properties, acc).error == ParsingError(RequiredListMsg, name)
  {
    RequiredNamesOk(name, xs, properties, acc);
    if RequiredNames(name, xs, properties, acc).Ok? {
      RequiredNamesValue(name, xs, properties, acc);
    }
    RequiredNamesError(name, xs, properties, acc);
  }

  lemma {:induction false} RequiredNamesOk(name: string, xs: seq<Value>, properties: seq<(string, ItemRef)>,
                                           acc: seq<string>)
    ensures RequiredNames(name, xs, properties, acc).Ok? <==>
            forall i :: 0 <= i < |xs| ==> xs[i].Str? && Dict.HasKey(properties, xs[i].s)
    decreases |xs|
  {
    if xs != [] {
      NamesCons(xs, properties);
      if xs[0].Str? && Dict.HasKey(properties, xs[0].s) {
        RequiredNamesOk(name, xs[1..], properties, acc + [xs[0].s]);
      }
    }
  }

  lemma {:induction false} RequiredNamesValue(name: string, xs: seq<Value>, properties: seq<(string, ItemRef)>,
                                              acc: seq<string>)
    requires RequiredNames(name, xs, properties, acc).Ok?
    ensures forall i :: 0 <= i < |xs| ==> xs[i].Str?
    ensures RequiredNames(name, xs, properties, acc).value == acc + Strings(xs)
    decreases |xs|
  {
    if xs != [] {
      var tail := xs[1..];
      RequiredNamesValue(name, tail, properties, acc + [xs[0].s]);
      NamesCons(xs, properties);
      assert acc + [xs[0].s] + Strings(tail) == acc + Strings(xs);
    }
  }

  lemma {:induction false} RequiredNamesError(name: string, xs: seq<Value>, properties: seq<(string, ItemRef)>,
                                              acc: seq<string>)
    ensures RequiredNames(name, xs, properties, acc).Err? ==>
            RequiredNames(name, xs, properties, acc).error == ParsingError(RequiredListMsg, name)
    decreases |xs|
  {
    if xs != [] && xs[0].Str? && Dict.HasKey(properties, xs[0].s) {
      RequiredNamesError(name, xs[1..], properties, acc + [xs[0].s]);
    }
  }

  /** A list names only properties when its head and its tail do, and its
      strings are then the head's followed by the tail's. */
  lemma NamesCons(xs: seq<Value>, properties: seq<(string, ItemRef)>)
    requires xs != []
    ensures (forall i :: 0 <= i < |xs| ==> xs[i].Str? && Dict.HasKey(properties, xs[i].s)) <==>
            && xs[0].Str? && Dict.HasKey(properties, xs[0].s)
            && forall i :: 0 <= i < |xs[1..]| ==> xs[1..][i].Str? && Dict.HasKey(properties, xs[1..][i].s)
    ensures (forall i :: 0 <= i < |xs| ==> xs[i].Str?) <==>
            xs[0].Str? && forall i :: 0 <= i < |xs[1..]| ==> xs[1..][i].Str?
    ensures (forall i :: 0 <= i < |xs| ==> xs[i].Str?) ==> Strings(xs) == [xs[0].s] + Strings(xs[1..])
  {
    assert forall i :: 0 <= i < |xs[1..]| ==> xs[1..][i] == xs[i + 1];
  }


  /** With distinct property names, `__parse_properties` keeps every
      property under its own name, in declaration order, and fails exactly
      when one of them fails. */
  lemma PropertiesInOrder(parentName: string, props: seq<(string, Value)>, i: nat,
                          acc: seq<(string, ItemRef)>)
    requires i <= |props| && Dict.DistinctKeys(props)
    requires Dict.Keys(acc) == Dict.Keys(props[..i])
    ensures ParsedProperties(parentName, props, i, acc).Ok? <==>
            forall j :: i <= j < |props| ==> ParsedRefOrNested(props[j].1, parentName).Ok?
    ensures var r := ParsedProperties(parentName, props, i, acc);
            r.Ok? ==>
              && |r.value| == |props| && r.value[..i] == acc
              && forall j :: i <= j < |props| ==>
                   r.value[j].0 == props[j].0 && ParsedRefOrNested(props[j].1, parentName) == Ok(r.value[j].1)
  {
    PropertiesSucceed(parentName, props, i, acc);
    if ParsedProperties(parentName, props, i, acc).Ok? {
      PropertiesValue(parentName, props, i, acc);
    }
  }

  /** `__parse_properties` succeeds exactly when every remaining property
      parses. */
  lemma PropertiesSucceed(parentName: string, props: seq<(string, Value)>, i: nat,
                          acc: seq<(string, ItemRef)>)
    requires i <= |props|
    ensures ParsedProperties(parentName, props, i, acc).Ok? <==>
            forall j :: i <= j < |props| ==> ParsedRefOrNested(props[j].1, parentName).Ok?
  {
    var parse := RefParser(parentName);
    FoldIsParsed(parentName, props, i, acc);
    FoldSucceeds(parse, props, i, acc);
    assert forall j :: i <= j < |props| ==> parse(props[j].1) == ParsedRefOrNested(props[j].1, parentName);
  }

  /** With distinct names, a successful `__parse_properties` keeps what it
      had and appends every remaining property, in order, each under its
      own name. */
  lemma PropertiesValue(parentName: string, props: seq<(string, Value)>, i: nat,
                        acc: seq<(string, ItemRef)>)
    requires i <= |props| && Dict.DistinctKeys(props)
    requires Dict.Keys(acc) == Dict.Keys(props[..i])
    requires ParsedProperties(parentName, props, i, acc).Ok?
    ensures var r := ParsedProperties(parentName, props, i, acc).value;
            && |r| == |props| && r[..i] == acc
            && forall j :: i <= j < |props| ==>
                 r[j].0 == props[j].0 && ParsedRefOrNested(props[j].1, parentName) == Ok(r[j].1)
  {
    var r := ParsedProperties(parentName, props, i, acc).value;
    assert |acc| == |Dict.Keys(acc)| == i;
    PropertiesAppend(parentName, props, i, acc);
    AppendPositions(RefParser(parentName), props, i, acc, r);
  }

  /** With distinct names, `__parse_properties` is the appending loop. */
  lemma PropertiesAppend(parentName: string, props: seq<(string, Value)>, i: nat, acc: seq<(string, ItemRef)>)
    requires i <= |props| && Dict.DistinctKeys(props)
    requires Dict.Keys(acc) == Dict.Keys(props[..i])
    ensures ParsedProperties(parentName, props, i, acc) == AppendProperties(RefParser(parentName), props, i, acc)
  {
    FoldIsParsed(parentName, props, i, acc);
    FoldAppends(RefParser(parentName), props, i, acc);
  }

  /** Started after the first `i` properties, the appending loop puts the
      `j`-th property at position `j`. */
  lemma AppendPositions(parse: Value -> Result<ItemRef>, props: seq<(string, Value)>, i: nat,
                        acc: seq<(string, ItemRef)>, r: seq<(string, ItemRef)>)
    requires i <= |props| && |acc| == i
    requires AppendProperties(parse, props, i, acc) == Ok(r)
    ensures |r| == |props| && r[..i] == acc
    ensures forall j :: i <= j < |props| ==> r[j].0 == props[j].0 && parse(props[j].1) == Ok(r[j].1)
  {
    AppendValue(parse, props, i, acc);
    forall j | i <= j < |props|
      ensures r[j].0 == props[j].0 && parse(props[j].1) == Ok(r[j].1)
    {
      assert |acc| + j - i == j;
    }
  }

  /** `parse_ref_or_nested_item` for the properties of `parentName`, as a
      function value. */
  function RefParser(parentName: string): (parse: Value -> Result<ItemRef>)
    ensures forall v :: parse(v) == ParsedRefOrNested(v, parentName)
  {
    v => ParsedRefOrNested(v, parentName)
  }

  /** The `__parse_properties` loop with the parse of one property left
      open. */
  function FoldProperties(parse: Value -> Result<ItemRef>, props: seq<(string, Value)>, i: nat,
                          acc: seq<(string, ItemRef)>): (r: Result<seq<(string, ItemRef)>>)
    requires i <= |props|
    ensures r.Ok? ==> |r.value| >= |acc|
    decreases |props| - i
  {
    if i == |props| then Ok(acc)
    else
      match parse(props[i].1)
      case Err(e) => Err(e)
      case Ok(ref) => FoldProperties(parse, props, i + 1, Dict.Set(acc, props[i].0, ref))
  }

  /** The same loop when every name is new: each property is appended. */
  function AppendProperties(parse: Value -> Result<ItemRef>, props: seq<(string, Value)>, i: nat,
                            acc: seq<(string, ItemRef)>): (r: Result<seq<(string, ItemRef)>>)
    requires i <= |props|
    ensures r.Ok? ==> |r.value| == |acc| + |props| - i
    decreases |props| - i
  {
    if i == |props| then Ok(acc)
    else
      match parse(props[i].1)
      case Err(e) => Err(e)
      case Ok(ref) => AppendProperties(parse, props, i + 1, acc + [(props[i].0, ref)])
  }

  /** `__parse_properties` is the loop above with `parse_ref_or_nested_item`
      as the parse of one property. */
  lemma {:induction false} FoldIsParsed(parentName: string, props: seq<(string, Value)>, i: nat,
                                        acc: seq<(string, ItemRef)>)
    requires i <= |props|
    ensures ParsedProperties(parentName, props, i, acc) == FoldProperties(RefParser(parentName), props, i, acc)
    decreases |props| - i
  {
    if i < |props| {
      PropertiesStep(parentName, props, i, acc);
      match ParsedRefOrNested(props[i].1, parentName)
      case Err(e) =>
      case Ok(ref) =>
        FoldIsParsed(parentName, props, i + 1, Dict.Set(acc, props[i].0, ref));
    }
  }

  /** One turn of the `__parse_properties` loop. */
  lemma PropertiesStep(parentName: string, props: seq<(string, Value)>, i: nat, acc: seq<(string, ItemRef)>)
    requires i < |props|
    ensures ParsedProperties(parentName, props, i, acc) ==
            match ParsedRefOrNested(props[i].1, parentName)
            case Err(e) => Err(e)
            case Ok(ref) => ParsedProperties(parentName, props, i + 1, Dict.Set(acc, props[i].0, ref))
  {
  }

  /** With distinct names, storing under a name is appending. */
  lemma {:induction false} FoldAppends(parse: Value -> Result<ItemRef>, props: seq<(string, Value)>, i: nat,
                                       acc: seq<(string, ItemRef)>)
    requires i <= |props| && Dict.DistinctKeys(props)
    requires Dict.Keys(acc) == Dict.Keys(props[..i])
    ensures FoldProperties(parse, props, i, acc) == AppendProperties(parse, props, i, acc)
    decreases |props| - i
  {
    if i < |props| && parse(props[i].1).Ok? {
      var ref := parse(props[i].1).value;
      PropertyAppended(props, i, acc, ref);
      FoldAppends(parse, props, i + 1, acc + [(props[i].0, ref)]);
    }
  }

  /** The loop succeeds exactly when every remaining property parses. */
  lemma {:induction false} FoldSucceeds(parse: Value -> Result<ItemRef>, props: seq<(string, Value)>, i: nat,
                                        acc: seq<(string, ItemRef)>)
    requires i <= |props|
    ensures FoldProperties(parse, props, i, acc).Ok? <==>
            forall j :: i <= j < |props| ==> parse(props[j].1).Ok?
  {
    FoldOk(parse, props, i, acc);
    AllParseIff(parse, props, i);
  }

  /** Every property from `i` on parses. */
  predicate AllParse(parse: Value -> Result<ItemRef>, props: seq<(string, Value)>, i: nat)
    requires i <= |props|
    decreases |props| - i
  {
    i == |props| || (parse(props[i].1).Ok? && AllParse(parse, props, i + 1))
  }

  /** The loop succeeds exactly when every remaining property parses,
      whatever it has collected so far. */
  lemma {:induction false} FoldOk(parse: Value -> Result<ItemRef>, props: seq<(string, Value)>, i: nat,
                                  acc: seq<(string, ItemRef)>)
    requires i <= |props|
    ensures FoldProperties(parse, props, i, acc).Ok? == AllParse(parse, props, i)
    decreases |props| - i
  {
    if i < |props| && parse(props[i].1).Ok? {
      FoldOk(parse, props, i + 1, Dict.Set(acc, props[i].0, parse(props[i].1).value));
    }
  }

  lemma {:induction false} AllParseIff(parse: Value -> Result<ItemRef>, props: seq<(string, Value)>, i: nat)
    requires i <= |props|
    ensures AllParse(parse, props, i) <==> forall j :: i <= j < |props| ==> parse(props[j].1).Ok?
    decreases |props| - i
  {
    if i < |props| {
      AllParseIff(parse, props, i + 1);
    }
  }

  /** A successful appending loop keeps what it had and adds every
      remaining property after it, in order, each under its own name. */
  lemma {:induction false} AppendValue(parse: Value -> Result<ItemRef>, props: seq<(string, Value)>, i: nat,
                                       acc: seq<(string, ItemRef)>)
    requires i <= |props|
    requires AppendProperties(parse, props, i, acc).Ok?
    ensures var r := AppendProperties(parse, props, i, acc).value;
            && r[..|acc|] == acc
            && forall j :: i <= j < |props| ==>
                 r[|acc| + j - i].0 == props[j].0 && parse(props[j].1) == Ok(r[|acc| + j - i].1)
    decreases |props| - i
  {
    if i < |props| {
      var next := acc + [(props[i].0, parse(props[i].1).value)];
      AppendValue(parse, props, i + 1, next);
      var r := AppendProperties(parse, props, i + 1, next).value;
      assert r[..|acc|] == r[..|next|][..|acc|];
      assert r[|acc|] == r[..|next|][|acc|];
    }
  }

  /** With distinct names, the next property is new to those gathered so
      far, so it is appended after them. */
  lemma PropertyAppended(props: seq<(string, Value)>, i: nat, acc: seq<(string, ItemRef)>, ref: ItemRef)
    requires i < |props| && Dict.DistinctKeys(props)
    requires Dict.Keys(acc) == Dict.Keys(props[..i])
    ensures Dict.Set(acc, props[i].0, ref) == acc + [(props[i].0, ref)]
    ensures Dict.Keys(acc + [(props[i].0, ref)]) == Dict.Keys(props[..i + 1])
  {
    forall k | 0 <= k < |acc|
      ensures Dict.Keys(acc)[k] != props[i].0
    {
      assert Dict.Keys(acc)[k] == Dict.Keys(props[..i])[k] == props[k].0;
    }
    Dict.KeysAppend(acc, [(props[i].0, ref)]);
    Dict.KeysAppend(props[..i], [props[i]]);
    assert props[..i + 1] == props[..i] + [props[i]];
  }

  /** A parsed object: `properties` must be a non-empty mapping; with
      distinct property names its properties are the declared ones in
      order, each the parse of its definition; every required name is one
      of them (`ObjectRequired` gives the whole of `required`). */
  lemma ObjectFields(item: Item, fields: seq<(string, Value)>)
    requires item.kind.ObjectKind? && item.kind.properties == [] && item.kind.required == []
    requires ParsedCommon(item, fields).Ok?
    ensures Dict.Get(fields, PropertiesKey).None? ==>
              ParsedObject(item, fields) == Err(ParsingError(PropertiesRequiredMsg, item.name))
    ensures Dict.Get(fields, PropertiesKey).Some? &&
            (Falsy(Dict.Get(fields, PropertiesKey).value) || !Dict.Get(fields, PropertiesKey).value.Map?) ==>
              ParsedObject(item, fields) == Err(ParsingError(PropertiesMapMsg, item.name))
    ensures ParsedObject(item, fields).Ok? ==>
              var props := Dict.Get(fields, PropertiesKey).value.entries;
              var kind := ParsedObject(item, fields).value.kind;
              && (Dict.DistinctKeys(props) ==>
                    && |kind.properties| == |props|
                    && forall j :: 0 <= j < |props| ==>
                         kind.properties[j].0 == props[j].0
                         && ParsedRefOrNested(props[j].1, item.name) == Ok(kind.properties[j].1))
              && (forall r :: r in kind.required ==> Dict.HasKey(kind.properties, r))
  {
    var r := ParsedObject(item, fields);
    if r.Ok? {
      var j := Dict.IndexOf(fields, PropertiesKey).value;
      var props := fields[j].1.entries;
      var properties := ParsedProperties(item.name, props, 0, []).value;
      if Dict.DistinctKeys(props) {
        PropertiesInOrder(item.name, props, 0, []);
      }
      match Dict.Get(fields, RequiredKey)
      case None =>
      case Some(v) =>
        if !Falsy(v) && v.List? {
          RequiredNamesOutcome(item.name, v.items, properties, []);
          assert r.value.kind.required == Strings(v.items);
        }
    }
  }

  /** `__parse_required`: an absent or falsy `required` adds nothing; a
      truthy value that is no list fails; a list succeeds exactly when
      every element is a string naming a property, and then adds those
      names in the order listed. */
  lemma RequiredDispatch(name: string, fields: seq<(string, Value)>, properties: seq<(string, ItemRef)>,
                         acc: seq<string>)
    ensures Dict.Get(fields, RequiredKey).None? ==> ParsedRequired(name, fields, properties, acc) == Ok(acc)
    ensures Dict.Get(fields, RequiredKey).Some? && Falsy(Dict.Get(fields, RequiredKey).value) ==>
              ParsedRequired(name, fields, properties, acc) == Ok(acc)
    ensures Dict.Get(fields, RequiredKey).Some? && !Falsy(Dict.Get(fields, RequiredKey).value) &&
            !Dict.Get(fields, RequiredKey).value.List? ==>
              ParsedRequired(name, fields, properties, acc) == Err(ParsingError(RequiredListMsg, name))
    ensures Dict.Get(fields, RequiredKey).Some? && !Falsy(Dict.Get(fields, RequiredKey).value) &&
            Dict.Get(fields, RequiredKey).value.List? ==>
              var xs := Dict.Get(fields, RequiredKey).value.items;
              && (ParsedRequired(name, fields, properties, acc).Ok? <==>
                    forall i :: 0 <= i < |xs| ==> xs[i].Str? && Dict.HasKey(properties, xs[i].s))
              && (ParsedRequired(name, fields, properties, acc).Ok? ==>
                    (forall i :: 0 <= i < |xs| ==> xs[i].Str?) &&
                    ParsedRequired(name, fields, properties, acc).value == acc + Strings(xs))
  {
    match Dict.Get(fields, RequiredKey)
    case None =>
    case Some(v) =>
      if !Falsy(v) && v.List? {
        RequiredNamesOutcome(name, v.items, properties, acc);
      }
  }

  /** `required` of a new object, once its properties are read: absent or
      falsy leaves it empty; otherwise the object parses exactly when
      `required` is a list of strings each naming a parsed property, the
      names then kept in the order listed, and every other case fails with
      "'required' must be a list of property names" in the object's
      context. */
  lemma ObjectRequired(item: Item, fields: seq<(string, Value)>, properties: seq<(string, ItemRef)>)
    requires item.kind.ObjectKind? && item.kind.properties == [] && item.kind.required == []
    requires ParsedCommon(item, fields).Ok?
    requires Dict.Get(fields, PropertiesKey).Some?
    requires var p := Dict.Get(fields, PropertiesKey).value;
             !Falsy(p) && p.Map? && ParsedProperties(item.name, p.entries, 0, []) == Ok(properties)
    ensures var required := Dict.Get(fields, RequiredKey);
            required.None? || Falsy(required.value) ==>
              ParsedObject(item, fields) == Ok(ParsedCommon(item, fields).value.(kind := ObjectKind(properties, [])))
    ensures var required := Dict.Get(fields, RequiredKey);
            required.Some? && !Falsy(required.value) ==>
              var v := required.value;
              && (ParsedObject(item, fields).Ok? <==>
                    v.List? && forall i :: 0 <= i < |v.items| ==> v.items[i].Str? && Dict.HasKey(properties, v.items[i].s))
              && (ParsedObject(item, fields).Err? ==>
                    ParsedObject(item, fields).error == ParsingError(RequiredListMsg, item.name))
              && (ParsedObject(item, fields).Ok? ==>
                    (forall i :: 0 <= i < |v.items| ==> v.items[i].Str?) &&
                    ParsedObject(item, fields) ==
                      Ok(ParsedCommon(item, fields).value.(kind := ObjectKind(properties, Strings(v.items)))))
  {
    var required := Dict.Get(fields, RequiredKey);
    if required.Some? && !Falsy(required.value) {
      RequiredListed(item, fields, properties);
    } else {
      ObjectSteps(item, fields, properties);
      RequiredDispatch(item.name, fields, properties, []);
    }
  }

  lemma RequiredListed(item: Item, fields: seq<(string, Value)>, properties: seq<(string, ItemRef)>)
    requires item.kind.ObjectKind? && item.kind.properties == [] && item.kind.required == []
    requires ParsedCommon(item, fields).Ok?
    requires Dict.Get(fields, PropertiesKey).Some?
    requires var p := Dict.Get(fields, PropertiesKey).value;
             !Falsy(p) && p.Map? && ParsedProperties(item.name, p.entries, 0, []) == Ok(properties)
    requires Dict.Get(fields, RequiredKey).Some? && !Falsy(Dict.Get(fields, RequiredKey).value)
    ensures var v := Dict.Get(fields, RequiredKey).value;
            && (ParsedObject(item, fields).Ok? <==>
                  v.List? && forall i :: 0 <= i < |v.items| ==> v.items[i].Str? && Dict.HasKey(properties, v.items[i].s))
            && (ParsedObject(item, fields).Err? ==>
                  ParsedObject(item, fields).error == ParsingError(RequiredListMsg, item.name))
            && (ParsedObject(item, fields).Ok? ==>
                  (forall i :: 0 <= i < |v.items| ==> v.items[i].Str?) &&
                  ParsedObject(item, fields) ==
                    Ok(ParsedCommon(item, fields).value.(kind := ObjectKind(properties, Strings(v.items)))))
  {
    ObjectSteps(item, fields, properties);
    RequiredDispatch(item.name, fields, properties, []);
    RequiredNamesSpec(item.name, fields, properties, []);
    var v := Dict.Get(fields, RequiredKey).value;
    if v.List? && ParsedRequired(item.name, fields, properties, []).Ok? {
      var names := Strings(v.items);
      assert [] + names == names;
    }
  }

  /** Past the properties step, an object is its properties together with
      the outcome of `__parse_required`. */
  lemma ObjectSteps(item: Item, fields: seq<(string, Value)>, properties: seq<(string, ItemRef)>)
    requires item.kind.ObjectKind? && item.kind.properties == [] && item.kind.required == []
    requires ParsedCommon(item, fields).Ok?
    requires Dict.Get(fields, PropertiesKey).Some?
    requires var p := Dict.Get(fields, PropertiesKey).value;
             !Falsy(p) && p.Map? && ParsedProperties(item.name, p.entries, 0, []) == Ok(properties)
    ensures var required := ParsedRequired(item.name, fields, properties, []);
            ParsedObject(item, fields) ==
              if required.Ok? then Ok(ParsedCommon(item, fields).value.(kind := ObjectKind(properties, required.value)))
              else Err(required.error)
  {
    var j := Dict.IndexOf(fields, PropertiesKey).value;
    assert fields[j].1 == Dict.Get(fields, PropertiesKey).value;
  }

  /** A new item of each class, before any field is read. */
  lemma CreateItemDefaults(name: string)
    ensures CreateItem(name, IntT) == Ok(Item(name, "", IntKind(Int32)))
    ensures CreateItem(name, NumberT) == Ok(Item(name, "", NumberKind(Float)))
    ensures CreateItem(name, StringT) == Ok(Item(name, "", StringKind(None)))
    ensures CreateItem(name, ArrayT) == Ok(Item(name, "", ArrayKind(Array, None)))
    ensures CreateItem(name, ObjectT) == Ok(Item(name, "", ObjectKind([], [])))
    ensures CreateItem(name, BoolT) == Ok(Item(name, "", BoolKind))
  {
  }
}
