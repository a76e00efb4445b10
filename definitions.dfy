/** The document-level loop every revision's `Parser.parse` runs: find the
    `definitions` block at the root of the document, then for each
    definition in document order parse it into an item and register it
    under its name, stopping at the first error. The table of registered
    items is append-only and never holds a name twice.

    The item parser differs between revisions and is a parameter here. */
module Definitions {
  import opened Outcomes
  import opened Yaml
  import Dict

  const DefinitionsKey: string := "definitions"
  const MissingDefinitionsMsg: string := "cannot find 'definitions' block in the root of the document"

  function DuplicateMsg(name: string): string {
    name + " is defined more than once"
  }

  /** `__get_definitions_block`: the value under `definitions` at the root. */
  function DefinitionsBlock(doc: Value): (r: Result<Value>)
    ensures doc.Map? ==> (r.Ok? <==> Dict.HasKey(doc.entries, DefinitionsKey))
    ensures doc.Map? && !Dict.HasKey(doc.entries, DefinitionsKey) ==>
              r == Err(ParsingError(MissingDefinitionsMsg, ""))
    ensures r.Ok? ==> doc.Map? && Dict.Get(doc.entries, DefinitionsKey) == Some(r.value)
  {
    var found :- Contains(doc, DefinitionsKey);
    if !found then Err(ParsingError(MissingDefinitionsMsg, "")) else Index(doc, DefinitionsKey)
  }

  /** The (name, definition) pairs `for item_name in definitions` visits
      with `definitions[item_name]`: a mapping's entries in order. An empty
      string or list yields nothing to iterate; a non-empty string or list
      and every scalar make the loop raise a TypeError. */
  function DefinitionEntries(definitions: Value): (r: Result<seq<(string, Value)>>)
    ensures definitions.Map? ==> r == Ok(definitions.entries)
    ensures r.Ok? && !definitions.Map? ==> r.value == [] && Falsy(definitions)
  {
    match definitions
    case Map(es) => Ok(es)
    case Str(s) => if s == "" then Ok([]) else Err(TypeError)
    case List(xs) => if xs == [] then Ok([]) else Err(TypeError)
    case _ => Err(TypeError)
  }

  /** `__add_item`: register `item` under `name` unless the name is taken. */
  function Insert<T>(table: seq<(string, T)>, name: string, item: T): (r: Result<seq<(string, T)>>)
    ensures r.Ok? <==> !Dict.HasKey(table, name)
    ensures r.Ok? ==> |r.value| == |table| + 1 && r.value[..|table|] == table
    ensures r.Ok? ==> Dict.Get(r.value, name) == Some(item)
    ensures r.Ok? && Dict.DistinctKeys(table) ==> Dict.DistinctKeys(r.value)
    ensures r.Err? ==> r.error == ParsingError(DuplicateMsg(name), "")
  {
    if Dict.HasKey(table, name) then Err(ParsingError(DuplicateMsg(name), ""))
    else
      Dict.GetAppended(table, name, item);
      Ok(table + [(name, item)])
  }

  /** The body of the `for` loop of `parse` over `entries`: the table after
      the loop and the error that ended it, if any. */
  function Build<T>(table: seq<(string, T)>, entries: seq<(string, Value)>,
                    parseItem: (string, Value) -> Result<T>): (seq<(string, T)>, Option<Error>)
    decreases |entries|
  {
    if entries == [] then (table, None)
    else
      match parseItem(entries[0].0, entries[0].1)
      case Err(e) => (table, Some(e))
      case Ok(item) =>
        match Insert(table, entries[0].0, item)
        case Err(e) => (table, Some(e))
        case Ok(next) => Build(next, entries[1..], parseItem)
  }

  /** `parse(yaml_dict)` starting from the registered items `table`: the
      table afterwards and the error raised, if any. */
  function Run<T>(table: seq<(string, T)>, doc: Value,
                  parseItem: (string, Value) -> Result<T>): (seq<(string, T)>, Option<Error>)
  {
    match DefinitionsBlock(doc)
    case Err(e) => (table, Some(e))
    case Ok(definitions) =>
      match DefinitionEntries(definitions)
      case Err(e) => (table, Some(e))
      case Ok(entries) => Build(table, entries, parseItem)
  }

  /** `res` is `table` followed by some of the first definitions, in
      document order, each under its own name and holding what the item
      parser made of it. */
  ghost predicate Registers<T>(table: seq<(string, T)>, res: seq<(string, T)>, entries: seq<(string, Value)>,
                               parseItem: (string, Value) -> Result<T>)
  {
    && |table| <= |res| <= |table| + |entries|
    && res[..|table|] == table
    && forall j :: |table| <= j < |res| ==>
         && res[j].0 == entries[j - |table|].0
         && parseItem(entries[j - |table|].0, entries[j - |table|].1) == Ok(res[j].1)
  }

  /** One turn of the loop: a definition that parses and whose name is
      free is registered, and the loop goes on with the rest. */
  lemma BuildStep<T>(table: seq<(string, T)>, name: string, v: Value, rest: seq<(string, Value)>,
                     parseItem: (string, Value) -> Result<T>, item: T)
    requires parseItem(name, v) == Ok(item) && !Dict.HasKey(table, name)
    ensures Build(table, [(name, v)] + rest, parseItem) == Build(table + [(name, item)], rest, parseItem)
  {
    assert ([(name, v)] + rest)[1..] == rest;
  }

  /** The loop only appends, and what it appends is the parsed definitions
      in document order. */
  lemma {:induction false} BuildAppends<T>(table: seq<(string, T)>, entries: seq<(string, Value)>,
                                         parseItem: (string, Value) -> Result<T>)
    ensures Registers(table, Build(table, entries, parseItem).0, entries, parseItem)
    decreases |entries|
  {
    if entries != [] && parseItem(entries[0].0, entries[0].1).Ok? {
      var item := parseItem(entries[0].0, entries[0].1).value;
      if !Dict.HasKey(table, entries[0].0) {
        var next := table + [(entries[0].0, item)];
        BuildAppends(next, entries[1..], parseItem);
        assert Build(next, entries[1..], parseItem).0 == Build(table, entries, parseItem).0;
        RegistersFirst(table, item, entries, Build(next, entries[1..], parseItem).0, parseItem);
      }
    }
  }

  /** Registering the first definition and then some of the others
      registers some of the definitions. */
  lemma RegistersFirst<T>(table: seq<(string, T)>, item: T, entries: seq<(string, Value)>, res: seq<(string, T)>,
                          parseItem: (string, Value) -> Result<T>)
    requires entries != [] && parseItem(entries[0].0, entries[0].1) == Ok(item)
    requires Registers(table + [(entries[0].0, item)], res, entries[1..], parseItem)
    ensures Registers(table, res, entries, parseItem)
  {
    var next := table + [(entries[0].0, item)];
    assert res[..|table|] == res[..|next|][..|table|];
    forall j | |table| <= j < |res|
      ensures res[j].0 == entries[j - |table|].0
      ensures parseItem(entries[j - |table|].0, entries[j - |table|].1) == Ok(res[j].1)
    {
      if j == |table| {
        assert res[j] == res[..|next|][j] == next[j];
      } else {
        assert entries[1..][j - |next|] == entries[j - |table|];
      }
    }
  }

  /** A clean run consumed every definition; an error comes from the first
      definition not registered, either from its item parser or because its
      name was already taken. */
  lemma {:induction false} BuildOutcome<T>(table: seq<(string, T)>, entries: seq<(string, Value)>,
                                         parseItem: (string, Value) -> Result<T>)
    ensures var (res, err) := Build(table, entries, parseItem);
            var n := |res| - |table|;
            && (err.None? ==> n == |entries|)
            && (err.Some? ==>
                  && 0 <= n < |entries|
                  && (|| parseItem(entries[n].0, entries[n].1) == Err(err.value)
                      || (&& parseItem(entries[n].0, entries[n].1).Ok?
                          && Dict.HasKey(res, entries[n].0)
                          && err.value == ParsingError(DuplicateMsg(entries[n].0), ""))))
    decreases |entries|
  {
    if entries != [] && parseItem(entries[0].0, entries[0].1).Ok? {
      var item := parseItem(entries[0].0, entries[0].1).value;
      if !Dict.HasKey(table, entries[0].0) {
        var next := table + [(entries[0].0, item)];
        BuildOutcome(next, entries[1..], parseItem);
        BuildAppends(next, entries[1..], parseItem);
        var (res, err) := Build(next, entries[1..], parseItem);
        if err.Some? {
          assert entries[1..][|res| - |next|] == entries[|res| - |table|];
        }
      }
    }
  }

  /** No name is ever registered twice. */
  lemma {:induction false} BuildDistinct<T>(table: seq<(string, T)>, entries: seq<(string, Value)>,
                                          parseItem: (string, Value) -> Result<T>)
    requires Dict.DistinctKeys(table)
    ensures Dict.DistinctKeys(Build(table, entries, parseItem).0)
    decreases |entries|
  {
    if entries != [] && parseItem(entries[0].0, entries[0].1).Ok? {
      var item := parseItem(entries[0].0, entries[0].1).value;
      if !Dict.HasKey(table, entries[0].0) {
        var next := Insert(table, entries[0].0, item).value;
        BuildDistinct(next, entries[1..], parseItem);
      }
    }
  }

  /** The loop ends without error exactly when every definition parses and
      no name is taken twice, neither among the definitions nor by an item
      registered before. */
  lemma {:induction false} BuildSucceeds<T>(table: seq<(string, T)>, entries: seq<(string, Value)>,
                                          parseItem: (string, Value) -> Result<T>)
    ensures Build(table, entries, parseItem).1.None? <==>
            && (forall j :: 0 <= j < |entries| ==> parseItem(entries[j].0, entries[j].1).Ok?)
            && (forall j :: 0 <= j < |entries| ==> !Dict.HasKey(table, entries[j].0))
            && Dict.DistinctKeys(entries)
    decreases |entries|
  {
    if entries != [] && parseItem(entries[0].0, entries[0].1).Ok? {
      var item := parseItem(entries[0].0, entries[0].1).value;
      if !Dict.HasKey(table, entries[0].0) {
        var tail := entries[1..];
        var next := table + [(entries[0].0, item)];
        BuildSucceeds(next, tail, parseItem);
        ConsSteps(table, item, entries, parseItem);
      }
    }
  }

  /** How the three conditions of a clean run split over the first
      definition and the rest. */
  lemma ConsSteps<T>(table: seq<(string, T)>, item: T, entries: seq<(string, Value)>,
                     parseItem: (string, Value) -> Result<T>)
    requires entries != []
    ensures (forall j :: 0 <= j < |entries| ==> parseItem(entries[j].0, entries[j].1).Ok?) <==>
            parseItem(entries[0].0, entries[0].1).Ok? &&
            forall j :: 0 <= j < |entries[1..]| ==> parseItem(entries[1..][j].0, entries[1..][j].1).Ok?
    ensures (forall j :: 0 <= j < |entries[1..]| ==> !Dict.HasKey(table + [(entries[0].0, item)], entries[1..][j].0)) <==>
            (forall j :: 1 <= j < |entries| ==> !Dict.HasKey(table, entries[j].0) && entries[j].0 != entries[0].0)
    ensures Dict.DistinctKeys(entries) <==>
            Dict.DistinctKeys(entries[1..]) && forall j :: 1 <= j < |entries| ==> entries[j].0 != entries[0].0
  {
    var tail := entries[1..];
    assert Dict.Keys(table + [(entries[0].0, item)]) == Dict.Keys(table) + [entries[0].0];
    assert forall j :: 1 <= j < |entries| ==> entries[j] == tail[j - 1];
  }

  /** Once the loop has stopped at an error, later definitions are never
      looked at. */
  lemma {:induction false} BuildStopsAtError<T>(table: seq<(string, T)>, entries: seq<(string, Value)>,
                                              rest: seq<(string, Value)>,
                                              parseItem: (string, Value) -> Result<T>)
    requires Build(table, entries, parseItem).1.Some?
    ensures Build(table, entries + rest, parseItem) == Build(table, entries, parseItem)
    decreases |entries|
  {
    assert entries != [];
    assert (entries + rest)[0] == entries[0];
    assert (entries + rest)[1..] == entries[1..] + rest;
    match parseItem(entries[0].0, entries[0].1)
    case Err(e) =>
    case Ok(item) =>
      match Insert(table, entries[0].0, item)
      case Err(e) =>
      case Ok(next) =>
        BuildStopsAtError(next, entries[1..], rest, parseItem);
  }

  /** A registered item is never replaced, whatever the document holds. */
  lemma RunKeepsRegistered<T>(table: seq<(string, T)>, doc: Value,
                              parseItem: (string, Value) -> Result<T>, name: string)
    requires Dict.HasKey(table, name)
    ensures Dict.Get(Run(table, doc, parseItem).0, name) == Dict.Get(table, name)
  {
    match DefinitionsBlock(doc)
    case Err(e) =>
    case Ok(definitions) =>
      match DefinitionEntries(definitions)
      case Err(e) =>
      case Ok(entries) =>
        BuildAppends(table, entries, parseItem);
        var res := Build(table, entries, parseItem).0;
        assert res == table + res[|table|..];
        Dict.IndexOfAppend(table, res[|table|..], name);
  }

  /** A document without a `definitions` block registers nothing and fails
      with the missing-block error. */
  lemma RunWithoutDefinitions<T>(table: seq<(string, T)>, doc: Value,
                                 parseItem: (string, Value) -> Result<T>)
    requires doc.Map? && !Dict.HasKey(doc.entries, DefinitionsKey)
    ensures Run(table, doc, parseItem) == (table, Some(ParsingError(MissingDefinitionsMsg, "")))
  {
  }

  /** A successful run registers each definition of a mapping block under
      its name, in document order, after the items registered before. */
  lemma RunSuccess<T>(table: seq<(string, T)>, doc: Value, parseItem: (string, Value) -> Result<T>)
    requires Run(table, doc, parseItem).1.None?
    ensures var res := Run(table, doc, parseItem).0;
            var entries := DefinitionEntries(DefinitionsBlock(doc).value).value;
            && |res| == |table| + |entries| && res[..|table|] == table
            && forall j :: 0 <= j < |entries| ==>
                 res[|table| + j].0 == entries[j].0
                 && parseItem(entries[j].0, entries[j].1) == Ok(res[|table| + j].1)
  {
    var entries := DefinitionEntries(DefinitionsBlock(doc).value).value;
    BuildAppends(table, entries, parseItem);
    BuildOutcome(table, entries, parseItem);
  }

  /** Parsing the same document a second time after a clean first run
      fails on its first definition, which is already registered, and
      registers nothing more. */
  lemma RunTwice<T>(table: seq<(string, T)>, doc: Value, parseItem: (string, Value) -> Result<T>)
    requires Run(table, doc, parseItem).1.None?
    requires DefinitionsBlock(doc).Ok? && DefinitionEntries(DefinitionsBlock(doc).value).Ok?
    requires DefinitionEntries(DefinitionsBlock(doc).value).value != []
    ensures var first := DefinitionEntries(DefinitionsBlock(doc).value).value[0].0;
            var once := Run(table, doc, parseItem).0;
            Run(once, doc, parseItem) == (once, Some(ParsingError(DuplicateMsg(first), "")))
  {
    var entries := DefinitionEntries(DefinitionsBlock(doc).value).value;
    var once := Run(table, doc, parseItem).0;
    BuildAppends(table, entries, parseItem);
    BuildOutcome(table, entries, parseItem);
    assert once[|table|].0 == entries[0].0;
    assert Dict.Keys(once)[|table|] == entries[0].0;
  }
}
