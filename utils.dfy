/** The helpers of codegen/utils.py shared by the middle and the newest
    revision: the text of a `ParsingError`, the closed-enum lookup
    `parse_enum`, and the `#Name` reference syntax. */
module Utils {
  import opened Outcomes
  import opened Yaml

  const ReferencePrefix: char := '#'

  /** The text of `ParsingError(msg, context)`: the context, a colon and a
      space, then the message; the bare message when the context is empty. */
  function ErrorText(msg: string, context: string): (text: string)
    ensures context == "" ==> text == msg
    ensures context != "" ==> |text| == |context| + 2 + |msg|
    ensures context != "" ==> text[..|context|] == context
    ensures context != "" ==> text[|context|..|context| + 2] == ": " && text[|context| + 2..] == msg
  {
    if context != "" then context + ": " + msg else msg
  }

  /** Within one context, different messages never render to the same text. */
  lemma ErrorTextInjective(msg1: string, msg2: string, context: string)
    requires ErrorText(msg1, context) == ErrorText(msg2, context)
    ensures msg1 == msg2
  {
    if context != "" {
      assert msg1 == ErrorText(msg1, context)[|context| + 2..];
    }
  }

  /** The member of `members` whose value string equals `value`, trying the
      members in order. */
  function FindMember<T>(value: Value, members: seq<(string, T)>): (r: Option<T>)
    ensures r.None? <==> forall i :: 0 <= i < |members| ==> value != Str(members[i].0)
    ensures r.Some? ==> exists i :: 0 <= i < |members| && value == Str(members[i].0) && r.value == members[i].1
  {
    if members == [] then None
    else if value == Str(members[0].0) then Some(members[0].1)
    else
      var r := FindMember(value, members[1..]);
      assert forall i :: 1 <= i < |members| ==> members[i] == members[1..][i - 1];
      r
  }

  /** The message of a failed `parse_enum`, quoting the value as `str()`
      renders it. */
  function InvalidValueMsg(enumName: string, value: Value): string {
    "field " + enumName + " has invalid value '" + Show(value) + "'"
  }

  /** `parse_enum`: the member whose value string equals `value`; otherwise
      the error "field <enumName> has invalid value '<value>'" in the
      context of the owner. Only a string can equal a member's value. */
  function ParseEnum<T>(value: Value, members: seq<(string, T)>, enumName: string, ownerName: string): (r: Result<T>)
    ensures r.Ok? <==> exists i :: 0 <= i < |members| && value == Str(members[i].0)
    ensures r.Ok? ==> exists i :: 0 <= i < |members| && value == Str(members[i].0) && r.value == members[i].1
    ensures r.Err? ==> r.error == ParsingError(InvalidValueMsg(enumName, value), ownerName)
  {
    match FindMember(value, members)
    case Some(m) => Ok(m)
    case None => Err(ParsingError(InvalidValueMsg(enumName, value), ownerName))
  }

  /** When no two members share a value string, the value string of a
      member selects exactly that member. */
  lemma ParseEnumMember<T>(members: seq<(string, T)>, i: nat, enumName: string, ownerName: string)
    requires i < |members|
    requires forall j, k :: 0 <= j < k < |members| ==> members[j].0 != members[k].0
    ensures ParseEnum(Str(members[i].0), members, enumName, ownerName) == Ok(members[i].1)
  {
  }

  /** `is_reference`: a string that starts with '#'; no other value is one. */
  predicate IsReference(v: Value) {
    v.Str? && |v.s| > 0 && v.s[0] == ReferencePrefix
  }

  /** `get_referenced_item_name`: the string without one leading '#'; a
      string that does not start with '#' comes back unchanged. */
  function GetReferencedItemName(ref: string): (name: string)
    ensures IsReference(Str(ref)) ==> [ReferencePrefix] + name == ref
    ensures !IsReference(Str(ref)) ==> name == ref
  {
    if |ref| > 0 && ref[0] == ReferencePrefix then ref[1..] else ref
  }

  /** Writing '#' before a name gives a reference to exactly that name:
      "#A" names "A", and "##A" names "#A". */
  lemma ReferenceRoundTrip(name: string)
    ensures IsReference(Str([ReferencePrefix] + name))
    ensures GetReferencedItemName([ReferencePrefix] + name) == name
  {
  }
}
