# Schema front-end of the YAML-to-C++ code generator, in Dafny

This project models the part of the code generator that turns an
already-loaded YAML document into a table of typed schema items. The
parser finds the `definitions` block at the root. For each definition, in
document order, it resolves the `type` tag and creates an item of the
matching class (int, number, bool, string, array, object). It then lets
the item read its own fields and registers the item under the
definition's name. The first error stops the loop.

The repository holds three revisions of this logic, and each is a
separate set of modules here:

- **Newest** (`codegen/parser/models.py`, `codegen/parser/parser.py`,
  helpers in `codegen/utils.py`): `ModelsV3`, `ModelsV3Properties`,
  `ParserV3`, `ScenariosV3`.
  - Every class checks its allowed fields.
  - Arrays own an `items` element type; objects own `properties` and
    `required`.
  - Nested items and `#Name` references are resolved through the
    `ItemRef` sum type.
- **Middle** (`codegen/models.py`, `codegen/parser.py`): `ModelsV2`,
  `ModelsV2Properties`, `ParserV2`, `ParserV2Properties`, `ScenariosV2`.
  - It has the allowed-field check and the int, number and string
    grammars.
  - Arrays and objects accept only `type` and `description`.
  - `ScenariosV2` states each case of the parametrised tests in
    `tests/test_parser.py`.
- **Oldest** (`src/codegen/models.py`, `src/codegen/parser.py`):
  `ModelsV1`, `ParserV1`, `ParserV1Properties`.
  - There is no allowed-field check.
  - The description is copied whatever its type.
  - Only ints and numbers read `format`.

Modules shared by the revisions:

- `Outcomes`: the result type and the exceptions.
- `Yaml`: the loaded document as a `Value`, with Python truthiness, `in`,
  subscription and `str()`.
- `Dict`: an insertion-ordered dict as a list of pairs.
- `ItemTypes`: the enum tables, which are identical in every revision.
- `Utils`: `codegen/utils.py`.
- `TypeField`: `get_item_type`, which the middle and newest revisions
  share word for word.
- `Definitions`: the registration loop of `Parser.parse`, which is the
  same text in all three revisions and takes the revision's item parser
  as a parameter.

Each `parse` routine appears twice:

- A function named `Parsed...` states what the routine computes.
- A method named `Parse...` follows the Python statements, loops
  included, and its postcondition proves it computes exactly that
  function.
- Where the Python routine has no loop, the method is the same logic
  written as statements that update a copy of the item, as the Python
  method assigns the fields of `self` one by one. Such a method's only
  promise is its equality with the function, and the properties of the
  routine are proved about the function.
- Each `Parser` class keeps the table in a field. Its `Parse` method is
  proved equal to `Definitions.Run`, and the lemmas about `Run` carry the
  promises of the loop.

Behaviour of the code worth knowing:

- In the newest revision, each object property's nested item is named
  `<parent>Items`, as array elements are (codegen/parser/models.py:340).
  It is not named after the property.
- A key set inside the allowed fields does not guarantee success. The
  value checks can still fail.
- `enum` lists are not checked for distinct values. `required` is a list
  that may repeat names.
- The `item` tag passes the type lookup and then makes the factory raise
  a `RuntimeError`.
- The registered table lives on the `Parser` instance. The items
  registered before an error stay, and a second `parse` on the same
  instance fails on the first name it sees again.
- In the oldest revision, an item whose name is empty and whose enum
  value matches nothing raises the `ValueError` of a malformed template
  (src/codegen/parser.py:133), not a parsing error.

## Model

| member | source | states |
|---|---|---|
| Utils.ErrorText | codegen/utils.py:7-10 | The rendered text is "<context>: <msg>" when the context is non-empty, and the bare message otherwise. |
| Utils.ErrorTextInjective | codegen/utils.py:8-10 | Within one context, two different messages never render to the same text. |
| Utils.FindMember | codegen/utils.py:16-18 | Finds a member exactly when some member's value string equals the input. What it returns is such a member. |
| Utils.ParseEnum | codegen/utils.py:13-25 | Succeeds iff some member's value string equals the value, and then returns that member. Otherwise it fails with "field <enum> has invalid value '<v>'" in the owner's context. |
| Utils.ParseEnumMember | codegen/utils.py:16-18 | When value strings are distinct, each member's value string selects exactly that member. |
| Utils.GetReferencedItemName | codegen/utils.py:30-31 | Removes exactly one leading '#'. A string without the prefix comes back unchanged. |
| Utils.ReferenceRoundTrip | codegen/utils.py:27-31 | "#"+n is a reference and names n, so "##A" names "#A". |
| ItemTypes.TablesMatchNames | codegen/parser/models.py:18-25 | Every enum table pairs each member with its own value string. |
| ItemTypes.TablesDistinct | codegen/parser/models.py:105-110 | No value string occurs twice in any enum table. |
| TypeField.GetItemType | codegen/parser/models.py:28-38 | A found tag is the one whose string sits under `type` in a mapping. A mapping without `type` fails with "field 'type' is required for item <name>". The middle revision's `__get_item_type` (codegen/parser.py:63-74) is the same code. |
| TypeField.GetItemTypeOfTag | codegen/parser/models.py:33-38 | Each of the seven tag strings resolves to its own tag. |
| TypeField.GetItemTypeInvalid | codegen/parser/models.py:33-38 | A `type` value that is no tag string fails with the invalid-value error in the item's context. |
| Definitions.DefinitionsBlock | codegen/parser/parser.py:35-42 | On a mapping it succeeds iff `definitions` is a key, and then yields its value. Otherwise it fails with "cannot find 'definitions' block in the root of the document". |
| Definitions.DefinitionEntries | codegen/parser/parser.py:14-15 | A mapping block yields its entries in order. Any other block that yields something is empty and falsy. |
| Definitions.Insert | codegen/parser/parser.py:20-25 | Succeeds iff the name is not yet registered, and then appends the item and keeps names distinct. Otherwise it fails with "<name> is defined more than once". |
| Definitions.BuildStep | codegen/parser/parser.py:14-18 | A definition that parses and whose name is free is registered, and the loop continues with the rest. |
| Definitions.BuildAppends | codegen/parser/parser.py:14-18 | The loop only appends: the old table is a prefix, and each new entry is a definition's name with its parsed item, in document order. |
| Definitions.BuildOutcome | codegen/parser/parser.py:14-25 | A clean run registers every definition. An error belongs to the first unregistered definition: its parse failed, or its name was taken. |
| Definitions.BuildDistinct | codegen/parser/parser.py:20-25 | The table never holds a name twice. |
| Definitions.BuildSucceeds | codegen/parser/parser.py:14-25 | The loop ends without error iff every definition parses and no name repeats, among the definitions or against earlier entries. |
| Definitions.BuildStopsAtError | codegen/parser/parser.py:14-18 | After the first error, later definitions are never looked at. |
| Definitions.RunKeepsRegistered | codegen/parser/parser.py:20-25 | An item already registered is never replaced. |
| Definitions.RunWithoutDefinitions | codegen/parser/parser.py:35-42 | A document without `definitions` registers nothing and fails with the missing-block error. |
| Definitions.RunSuccess | codegen/parser/parser.py:11-18 | A clean run appends every definition of the block, in order, each as its own parse. |
| Definitions.RunTwice | codegen/parser/parser.py:8-9 | A second parse of the same document on the same table fails on its first name and adds nothing. |
| ModelsV3.CreateItem | codegen/parser/models.py:301-317 | Succeeds iff the tag is not `item`. The result has the name, an empty description and the tag's class; `item` raises RuntimeError "unknown type object ModelItemType.Item". |
| ModelsV3.ParsedCommon | codegen/parser/models.py:50-59 | A successful `ModelItem.parse` keeps the item's name and class fields. |
| ModelsV3.Parsed | codegen/parser/models.py:116-117 | A successful `parse` of any class keeps the name and the class. |
| ModelsV3.ParsedItem | codegen/parser/models.py:338-344 | A definition that parses is named by the given name. |
| ModelsV3.CheckAllowedFields | codegen/parser/models.py:61-67 | No error iff every key is allowed. Otherwise the error is "unknown field '<k>'" for the first key k outside, in the item's context. |
| ModelsV3.ParseCommon | codegen/parser/models.py:50-59 | Runs the allowed-field check and then the description step, computing exactly `ParsedCommon`. |
| ModelsV3.ParseInt | codegen/parser/models.py:116-125 | Computes exactly `ParsedInt`: the common part, then `format` against the int formats. |
| ModelsV3.ParseNumber | codegen/parser/models.py:141-150 | Computes exactly `ParsedNumber`: the common part, then `format` against the number formats. |
| ModelsV3.ParseEnumList | codegen/parser/models.py:180-196 | Its loop over the elements computes exactly `ParsedEnumList`: falsy fails, a non-list or a non-string element fails, otherwise the strings. |
| ModelsV3.ParseString | codegen/parser/models.py:175-178 | Computes exactly `ParsedString`. |
| ModelsV3.ParseArray | codegen/parser/models.py:216-236 | Computes exactly `ParsedArray`: `items` is required and non-falsy, resolved first, then `array_type`. |
| ModelsV3.ParseObject | codegen/parser/models.py:255-276 | Computes exactly `ParsedObject`: `properties` must be a non-empty mapping, then `required`. |
| ModelsV3.ParseProperties | codegen/parser/models.py:274-276 | Its loop stores each property's reference under the property's name, computing exactly `ParsedProperties`. |
| ModelsV3.ParseRequired | codegen/parser/models.py:278-294 | Its loop appends each listed name that is a property and fails on any other, computing exactly `ParsedRequired`. |
| ModelsV3.Parse | codegen/parser/models.py:343 | Dispatches on the class, computing exactly `Parsed`. |
| ModelsV3.ParseRefOrNestedItem | codegen/parser/models.py:320-346 | Computes exactly `ParsedRefOrNested`, recursing through nested definitions. |
| ModelsV3.ParseItem | codegen/parser/models.py:340-344 | Tag, factory and parse, computing exactly `ParsedItem`. |
| ModelsV3Properties.ItemRefExclusive | codegen/parser/models.py:84-102 | An item reference is a reference or owns an item, never both. Each state's getter for the other state yields nothing. |
| ModelsV3Properties.ItemTagNotCreatable | codegen/parser/models.py:313-314 | A definition tagged `item` fails with the factory's RuntimeError. |
| ModelsV3Properties.ParsedItemNameAndType | codegen/parser/parser.py:27-32 | A parsed definition carries its key as name and the class its `type` string names. |
| ModelsV3Properties.CommonErrors | codegen/parser/models.py:50-67 | `ModelItem.parse` errors are in the item's context. It raises an unknown-field error iff some key is not allowed. |
| ModelsV3Properties.IntErrors | codegen/parser/models.py:116-125 | After the common part, an int fails only on `format`, in the item's context, and never with an unknown-field message. |
| ModelsV3Properties.NumberErrors | codegen/parser/models.py:141-150 | After the common part, a number fails only on `format`, in the item's context, and never with an unknown-field message. |
| ModelsV3Properties.StringErrors | codegen/parser/models.py:175-196 | After the common part, a string fails only on `enum`, in the item's context, and never with an unknown-field message. |
| ModelsV3Properties.ParsedErrors | codegen/parser/models.py:116-294 | Every error of `parse` points into the item or one nested in it. It is the item's own unknown-field error only if one of its keys is not allowed. |
| ModelsV3Properties.ArrayErrors | codegen/parser/models.py:216-236 | No error of the array part is an unknown-field error of the array itself. |
| ModelsV3Properties.ObjectErrors | codegen/parser/models.py:255-294 | No error of the object part is an unknown-field error of the object itself. |
| ModelsV3Properties.PropertiesErrors | codegen/parser/models.py:274-276 | Errors while reading properties point into the parent or a nested item, never an unknown field of the parent. |
| ModelsV3Properties.RequiredNamesSpec | codegen/parser/models.py:278-294 | The only error of `__parse_required` is "'required' must be a list of property names". |
| ModelsV3Properties.RefOrNestedErrors | codegen/parser/models.py:320-346 | Errors of a nested item carry the nested item's own name `<parent>Items` as context. |
| ModelsV3Properties.ParsedItemErrors | codegen/parser/models.py:28-38 | Every error of a definition's parse points into that definition. |
| ModelsV3Properties.UnknownField | codegen/parser/models.py:61-67 | `parse` fails with "unknown field '<k>'" in the item's context iff some key lies outside the class's allowed fields, and k is the first such key. |
| ModelsV3Properties.Description | codegen/parser/models.py:52-59 | A string description is stored verbatim and a non-string fails. Without one, the description is unchanged. |
| ModelsV3Properties.CommonFirst | codegen/parser/models.py:116-258 | Every class runs `ModelItem.parse` first: its error is the error of the whole parse, and a successful parse keeps the description that step set. |
| ModelsV3Properties.ArrayKeepsDescription | codegen/parser/models.py:216-236 | A parsed array passed the common part and keeps its description. |
| ModelsV3Properties.ObjectKeepsDescription | codegen/parser/models.py:255-294 | A parsed object passed the common part and keeps its description. |
| ModelsV3Properties.IntFormat | codegen/parser/models.py:112-125 | Without `format` the int keeps its format. Each format string selects its format; any other value fails in the item's context. |
| ModelsV3Properties.NumberFormat | codegen/parser/models.py:137-150 | Without `format` the number keeps its format. `float`/`double` select theirs; anything else fails. |
| ModelsV3Properties.StringEnum | codegen/parser/models.py:175-196 | Absent `enum` changes nothing. Falsy fails as "empty enum", checked first. A non-list or non-string element fails. A list of strings is stored verbatim and in order. |
| ModelsV3Properties.ArrayFields | codegen/parser/models.py:213-236 | Missing or falsy `items` fails before `array_type` is read. `items` becomes the element reference. `array_type` keeps its default or selects `array`/`set`; anything else fails. |
| ModelsV3Properties.RefOrNested | codegen/parser/models.py:320-346 | A '#' string is a reference to the rest of the string. A mapping is an owned item named `<parent>Items`. Anything else fails with "items must be an object or a reference, got <v>". |
| ModelsV3Properties.RequiredNamesOutcome | codegen/parser/models.py:291-294 | The loop succeeds iff every element is a string naming a property, and then appends them in order. |
| ModelsV3Properties.RequiredNamesOk | codegen/parser/models.py:291-294 | The loop over `required` succeeds iff every element is a string that names a property. |
| ModelsV3Properties.RequiredNamesValue | codegen/parser/models.py:291-294 | A successful loop appends the listed strings to what it had, verbatim and in order. |
| ModelsV3Properties.RequiredNamesError | codegen/parser/models.py:287-294 | The loop's only error is "'required' must be a list of property names" in the object's context. |
| ModelsV3Properties.PropertiesInOrder | codegen/parser/models.py:274-276 | With distinct names, the properties are the declared ones in order, each the parse of its value. The loop fails iff one of them fails. |
| ModelsV3Properties.PropertiesSucceed | codegen/parser/models.py:274-276 | Whatever the names, the properties loop succeeds iff every property value parses as a reference or a nested item. |
| ModelsV3Properties.PropertiesValue | codegen/parser/models.py:274-276 | With distinct names, a successful loop keeps what it had and appends each remaining property under its own name as the parse of its value. |
| ModelsV3Properties.ObjectFields | codegen/parser/models.py:255-294 | Missing `properties` and a non-mapping or empty `properties` fail with their messages. A parsed object holds the declared properties in order, and every required name is one of them. |
| ModelsV3Properties.RequiredDispatch | codegen/parser/models.py:278-294 | An absent or falsy `required` adds nothing. A truthy non-list fails with "'required' must be a list of property names". A list succeeds iff every element is a string naming a property, and then adds the names in the order listed. |
| ModelsV3Properties.ObjectSteps | codegen/parser/models.py:255-258 | Once the properties are read, the object is those properties together with the outcome of `__parse_required`, whose error is the object's error. |
| ModelsV3Properties.ObjectRequired | codegen/parser/models.py:255-294 | Once the properties are read, absent or falsy `required` leaves it empty. Otherwise the object parses iff `required` is a list of strings each naming a parsed property, and then keeps the names in the order listed. Every other case fails with the list-of-property-names error in the object's context. |
| ModelsV3Properties.RequiredListed | codegen/parser/models.py:283-294 | With a truthy `required`, the object parses iff it is a list of property names, keeps them in order, and otherwise fails with the list-of-property-names error. |
| ModelsV3Properties.CreateItemDefaults | codegen/parser/models.py:112-253 | New items start as int32, float, no enum, array element-less of kind `array`, and an object with no properties or required names. |
| ParserV3.Parser.constructor | codegen/parser/parser.py:8-9 | The table starts empty. |
| ParserV3.Parser.AddItem | codegen/parser/parser.py:20-25 | Registers the item under its name, or fails with the duplicate error and leaves the table unchanged. Names stay distinct. |
| ParserV3.Parser.Parse | codegen/parser/parser.py:11-18 | Its loop leaves the table and error exactly as `Definitions.Run` with the newest item parser says. Names stay distinct. |
| ScenariosV3.EndToEnd | codegen/parser/parser.py:11-18 | The Age/Tags document gives two entries: Age an int64, and Tags an array owning the string item "TagsItems" with enum [a, b]. |
| ScenariosV3.NestedIntItem | codegen/parser/models.py:336-344 | `items: {type: int}` owns an int named `<parent>Items` in the int32 format. |
| ScenariosV3.BareNameIsNoReference | codegen/parser/models.py:326-334 | `items: "Foo"` fails with "items must be an object or a reference, got Foo". |
| ModelsV2.GetType | codegen/models.py:52-54 | Each class answers its own tag, and only the base class answers `Item`. |
| ModelsV2.AllowedFields | codegen/models.py:25-31 | `type` and `description` are always allowed. `format` is allowed only for int and number, `enum` only for string, and nothing else. |
| ModelsV2.ParsedCommon | codegen/models.py:33-41 | A successful `ModelItem.parse` keeps the name and class fields. |
| ModelsV2.Parsed | codegen/models.py:33-41 | A successful `parse` of any class keeps the name and the class. |
| ModelsV2.CheckAllowedFields | codegen/models.py:43-50 | No error iff every key is allowed. Otherwise the error is "<name> has unknown field '<k>'" for the first key outside. |
| ModelsV2.ParseCommon | codegen/models.py:33-41 | Computes exactly `ParsedCommon`. |
| ModelsV2.ParseInt | codegen/models.py:68-77 | Computes exactly `ParsedInt`. |
| ModelsV2.ParseNumber | codegen/models.py:93-102 | Computes exactly `ParsedNumber`. |
| ModelsV2.ParseEnumList | codegen/models.py:132-145 | Its loop computes exactly `ParsedEnumList`: falsy is "empty enum in item <name>", then a non-list or non-string element fails. |
| ModelsV2.ParseString | codegen/models.py:127-130 | Computes exactly `ParsedString`. |
| ModelsV2.Parse | codegen/parser.py:31 | Dispatches on the class; bool, array and object run only the common part. |
| ModelsV2Properties.DescriptionNotUnknown | codegen/models.py:38-40 | The description error is never an unknown-field error. |
| ModelsV2Properties.EnumListNotUnknown | codegen/models.py:138-141 | The enum-list error is never an unknown-field error. |
| ModelsV2Properties.FormatErrorNotUnknown | codegen/models.py:72-77 | For an unnamed item the format error is still no unknown-field error. |
| ModelsV2Properties.CommonErrors | codegen/models.py:33-50 | `ModelItem.parse` errors have no context. It raises an unknown-field error iff some key is not allowed. |
| ModelsV2Properties.KindErrors | codegen/models.py:68-145 | Past the field check, no error of `parse` is an unknown-field error. |
| ModelsV2Properties.UnknownField | codegen/models.py:43-50 | `parse` fails with "<name> has unknown field '<k>'" iff some key lies outside the allowed fields, and k is the first such key. |
| ModelsV2Properties.StubKinds | codegen/models.py:152-179 | Bool, array and object allow only `type`/`description`. Any other key, `items` and `properties` included, is unknown, and the class fields keep their defaults. |
| ModelsV2Properties.Description | codegen/models.py:35-41 | A string description is stored verbatim and a non-string fails with "<name> description must be a string". |
| ModelsV2Properties.CommonFirst | codegen/models.py:33-145 | Every class runs `ModelItem.parse` first: its error is the error of the whole parse, and a successful parse keeps the description that step set. |
| ModelsV2Properties.IntFormat | codegen/models.py:64-77 | Int keeps int32 without `format`. Each format string selects its format; anything else fails in the item's context. |
| ModelsV2Properties.NumberFormat | codegen/models.py:89-102 | Number keeps float without `format`. `float`/`double` select theirs; anything else fails. |
| ModelsV2Properties.StringEnum | codegen/models.py:127-145 | Absent `enum` changes nothing. Falsy fails first. A non-list or non-string element fails. Strings are stored verbatim and in order. |
| ScenariosV2.ItemEmpty | tests/test_parser.py:11-14 | `{}` leaves the description ''. |
| ScenariosV2.ItemWithDesc | tests/test_parser.py:15-19 | `{'description': 'desc'}` gives 'desc'. |
| ScenariosV2.ItemBadDesc | tests/test_parser.py:20-24 | `{'description': 1}` fails. |
| ScenariosV2.ItemExtraField | tests/test_parser.py:25-29 | A key `field` fails as unknown. |
| ScenariosV2.IntEmpty | tests/test_parser.py:51-55 | `{}` gives int32. |
| ScenariosV2.IntFormats | codegen/models.py:68-77 | Each int format string gives that format. |
| ScenariosV2.IntInt32 | tests/test_parser.py:56-60 | 'int32' gives int32. |
| ScenariosV2.IntInt64 | tests/test_parser.py:61-65 | 'int64' gives int64. |
| ScenariosV2.IntBadFormat | tests/test_parser.py:66-70 | 'int33' fails with "field format has invalid value 'int33'" in context Integer. |
| ScenariosV2.IntExtraField | tests/test_parser.py:71-75 | `extra` fails as unknown. |
| ScenariosV2.NumberEmpty | tests/test_parser.py:97-101 | `{}` gives float. |
| ScenariosV2.NumberFormats | codegen/models.py:93-102 | Each number format string gives that format. |
| ScenariosV2.NumberFloat | tests/test_parser.py:102-106 | 'float' gives float. |
| ScenariosV2.NumberDouble | tests/test_parser.py:107-111 | 'double' gives double. |
| ScenariosV2.NumberBadFormat | tests/test_parser.py:112-116 | 'int' fails with the invalid-value error. |
| ScenariosV2.NumberExtraField | tests/test_parser.py:117-121 | `extra` fails as unknown. |
| ScenariosV2.StringEmpty | tests/test_parser.py:143-147 | `{}` leaves no enum. |
| ScenariosV2.StringEnumList | tests/test_parser.py:148-152 | ['value1', 'value2'] is stored as given. |
| ScenariosV2.StringEmptyEnum | tests/test_parser.py:153-157 | `[]` fails as "empty enum in item String". |
| ScenariosV2.StringBadEnum | tests/test_parser.py:158-162 | `{}` fails as an empty enum too. |
| ScenariosV2.StringBadEnumItems | tests/test_parser.py:163-167 | [1, 2, 3] fails with the list-of-strings error. |
| ScenariosV2.StringExtra | tests/test_parser.py:168-175 | `extra` beside `enum` fails as unknown. |
| ParserV2.CreateItem | codegen/parser.py:34-51 | Succeeds iff the tag is not `item`, giving the tag's class with the name and an empty description. `item` raises the RuntimeError. |
| ParserV2.ParsedItem | codegen/parser.py:27-32 | A parsed definition is named by its key. |
| ParserV2.ParseItem | codegen/parser.py:27-32 | Tag, factory and parse, computing exactly `ParsedItem`. |
| ParserV2.Parser.constructor | codegen/parser.py:8-9 | The table starts empty. |
| ParserV2.Parser.AddItem | codegen/parser.py:20-25 | Registers the item, or fails with the duplicate error and changes nothing. Names stay distinct. |
| ParserV2.Parser.Parse | codegen/parser.py:11-18 | Leaves the table and error exactly as `Definitions.Run` with the middle item parser says. |
| ParserV2Properties.ItemTagNotCreatable | codegen/parser.py:47-48 | A definition tagged `item` fails with the RuntimeError. |
| ParserV2Properties.ParsedItemSteps | codegen/parser.py:27-32 | A parsed definition had a concrete tag under `type`. It is the `parse` of a fresh item of that class, named by its key. |
| ParserV2Properties.CreateItemDefaults | codegen/models.py:64-175 | The factory's items start as int32, float, no enum, no element type with kind `array`, and empty properties and required. |
| ModelsV1.DefaultKind | src/codegen/models.py:26-98 | Each class's constructor defaults, of the class its tag names. |
| ModelsV1.NewItem | src/codegen/models.py:15-19 | A new item has the given name, the description '' and the class defaults. |
| ParserV1.ParseEnum | src/codegen/parser.py:123-134 | Succeeds iff a member's value string equals the value. A miss with an owner is "field <enum> of item <owner> has invalid value '<v>'"; with an empty owner the template raises a ValueError. |
| ParserV1.ParseEnumMember | src/codegen/parser.py:124-127 | Each member's value string selects that member. |
| ParserV1.GetItemType | src/codegen/parser.py:109-120 | A found tag is the string under `type`. A mapping without `type` fails with "field 'type' is required for item <name>". |
| ParserV1.GetItemTypeOfTag | src/codegen/parser.py:109-120 | Each tag string resolves to its tag. |
| ParserV1.CreateItem | src/codegen/parser.py:78-95 | Succeeds iff the tag is not `item`, giving the class's new item; `item` raises the RuntimeError. |
| ParserV1.ParsedDescription | src/codegen/parser.py:47-51 | The `description` value as it is, or None when absent. |
| ParserV1.ParsedInt | src/codegen/parser.py:54-63 | A successful read keeps name and description and yields an int. |
| ParserV1.ParsedNumber | src/codegen/parser.py:66-75 | A successful read keeps name and description and yields a number. |
| ParserV1.ParsedItem | src/codegen/parser.py:32-44 | A parsed definition is named by its key. |
| ParserV1.ParseInt | src/codegen/parser.py:54-63 | Assigns the format, computing exactly `ParsedInt`. |
| ParserV1.ParseNumber | src/codegen/parser.py:66-75 | Assigns the format, computing exactly `ParsedNumber`. |
| ParserV1.ParseItem | src/codegen/parser.py:32-44 | Tag, factory, description, then the int and number readers, computing exactly `ParsedItem`. |
| ParserV1.Parser.constructor | src/codegen/parser.py:12-13 | The table starts empty. |
| ParserV1.Parser.AddItem | src/codegen/parser.py:26-29 | Registers the item, or fails with the duplicate error and changes nothing. |
| ParserV1.Parser.Parse | src/codegen/parser.py:16-23 | Leaves the table and error exactly as `Definitions.Run` with the oldest item parser says. |
| ParserV1Properties.ItemTagNotCreatable | src/codegen/parser.py:91-92 | A definition tagged `item` fails with the RuntimeError. |
| ParserV1Properties.InvalidTag | src/codegen/parser.py:115-134 | An unknown tag fails as "field type of item <name> has invalid value '<v>'", or with the ValueError when the name is empty. |
| ParserV1Properties.OtherKeysIgnored | src/codegen/parser.py:32-44 | A bool, string, array or object definition is its class's new item with the description copied, whatever other keys it has. |
| ParserV1Properties.DescriptionCopied | src/codegen/parser.py:47-51 | The description is the document's value with no type check, and None when absent. |
| ParserV1Properties.FormatSteps | src/codegen/parser.py:32-44 | An int or number definition is a fresh item with its description, read by `__parse_int` or `__parse_number`. |
| ParserV1Properties.IntFormat | src/codegen/parser.py:54-63 | Without `format` the int keeps its format. A format string selects its format; anything else fails naming the item. |
| ParserV1Properties.NumberFormat | src/codegen/parser.py:66-75 | Without `format` the number keeps its format. `float`/`double` select theirs; anything else fails naming the item. |
| ParserV1Properties.ParsedItemNameAndType | src/codegen/parser.py:32-44 | A parsed definition is named by its key and has the concrete class of its `type`. |
| ParserV1Properties.NewItemDefaults | src/codegen/models.py:15-98 | New items start with '' as description: int32, float, no enum, no element type with kind `array`, empty properties and required. |

## Left out

- Loading the document is not part of this model: file I/O, the YAML
  library and its duplicate-key handling (`codegen/yaml_loader.py`,
  `src/codegen/yaml_loader.py`). The parser receives a `Value` tree, and
  mapping keys are strings.
- The orchestration and `print` calls of `codegen/codegen.py` and
  `src/main.py`, and the `__debug_print_item_info` console output, are
  not part of this model.
- The `id` field is a placeholder with no behaviour and is not modelled.
- Items are values, not objects updated in place. Each `parse` method
  returns the item as its fields stand afterwards. Aliasing between an
  item and the table is therefore not modelled, and neither are the two
  private fields `ItemRef` clears in place. The sum type makes the two
  states exclusive instead.
- Python's `repr` of a string is modelled as the string between single
  quotes, without escaping, and of a mapping or list as its elements
  joined; floats are not part of `Value`.
- The wording of Python's own `TypeError` messages is not modelled; only
  the fact that one is raised is.
- A non-empty list used as the `definitions` block is modelled as a
  `TypeError`. Python would index the list by its own elements and fail
  in one of several ways.
- Idempotence of re-parsing one mapping through a fresh item holds
  trivially, because the `Parsed...` functions are functions.
- A mapping whose keys repeat cannot come out of a Python dict. `Dict`
  finds the first pair, and lemmas that need distinct keys say so.
