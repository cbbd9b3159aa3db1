/**
 * api/Tag: a tag declared in a template document, read from its node, and
 * the typed parsing of values for it.
 */
module ApiTag {
  import opened Wrappers
  import opened JavaText
  import opened Json
  import opened TagDefinitions

  /** The boxed values parseNode can return: a String, an Integer or a Boolean. */
  datatype Value = Text(s: string) | Int(n: int) | Bool(b: bool)

  /** A Tag is never changed after construction. */
  datatype Tag = Tag(
    description: string,
    tagType: TypeEnum,
    defaultValue: Option<Value>,
    permission: string,
    choices: seq<string>)

  /**
   * parseNode(node, defaultValue) for a tag of the given type and choices: a
   * null node gives the default; a CHOICE value must be one of the choices
   * exactly, with case; NULL gives null.
   */
  function ParseWith(tagType: TypeEnum, choices: seq<string>, node: Option<Json>, d: Option<Value>): Option<Value> {
    match node
    case None => d
    case Some(n) =>
      match tagType
      case STRING => Some(Text(AsText(n)))
      case INT => Some(Int(AsInt(n)))
      case BOOLEAN => Some(Bool(AsBoolean(n)))
      case CHOICE => if AsText(n) in choices then Some(Text(AsText(n))) else None
      case NULL => None
  }

  /** parseNode(node, defaultValue). */
  function ParseNodeOr(t: Tag, node: Option<Json>, d: Option<Value>): Option<Value> {
    ParseWith(t.tagType, t.choices, node, d)
  }

  /** parseNode(node): the default is null. */
  function ParseNode(t: Tag, node: Option<Json>): Option<Value> {
    ParseNodeOr(t, node, None)
  }

  /**
   * What parseNode answers: the default for a null node; otherwise the
   * node's text for STRING, its int and boolean coercions for INT and
   * BOOLEAN, the text for CHOICE exactly when it is one of the choices, and
   * null for NULL.
   */
  lemma ParseNodeCases(t: Tag, node: Option<Json>, d: Option<Value>)
    ensures node.None? ==> ParseNodeOr(t, node, d) == d
    ensures node.Some? && t.tagType == STRING ==> ParseNodeOr(t, node, d) == Some(Text(AsText(node.value)))
    ensures node.Some? && t.tagType == INT ==> ParseNodeOr(t, node, d) == Some(Int(AsInt(node.value)))
    ensures node.Some? && t.tagType == BOOLEAN ==> ParseNodeOr(t, node, d) == Some(Bool(AsBoolean(node.value)))
    ensures node.Some? && t.tagType == CHOICE ==>
      (ParseNodeOr(t, node, d).Some? <==> exists i :: 0 <= i < |t.choices| && t.choices[i] == AsText(node.value))
    ensures node.Some? && t.tagType == CHOICE && ParseNodeOr(t, node, d).Some? ==>
      ParseNodeOr(t, node, d) == Some(Text(AsText(node.value)))
    ensures node.Some? && t.tagType == NULL ==> ParseNodeOr(t, node, d).None?
    ensures node.None? ==> ParseNode(t, node).None?
  {
  }

  /** The text of an optional field, or the fallback when absent. */
  function TextOr(node: Json, key: string, fallback: string): string {
    match Get(node, key)
    case Some(v) => AsText(v)
    case None => fallback
  }

  /** The declared type: STRING when absent, else valueOf the upper-cased text. */
  function TypeOf(node: Json): Result<TypeEnum> {
    match Get(node, "type")
    case Some(v) => TypeValueOf(ToUpper(AsText(v)))
    case None => Ok(STRING)
  }

  /**
   * The Tag that new Tag(node) builds, or the error it throws. The default
   * is parsed while the choice list is still empty.
   */
  function TagOf(node: Json): Result<Tag> {
    var tagType :- TypeOf(node);
    var choices := if Has(node, "choice") then Texts(Elements(Get(node, "choice").value)) else [];
    Ok(Tag(TextOr(node, "description", ""), tagType, ParseWith(tagType, [], Get(node, "default"), None),
           TextOr(node, "permission", ""), choices))
  }

  /** new Tag(node): fills the fields, then appends the text of each "choice" element in turn. */
  method NewTag(node: Json) returns (r: Result<Tag>)
    ensures r == TagOf(node)
  {
    var description := TextOr(node, "description", "");
    var tagTypeOrError := TypeOf(node);
    if tagTypeOrError.Err? {
      return Err(tagTypeOrError.error);
    }
    var tagType := tagTypeOrError.value;
    var defaultValue := ParseWith(tagType, [], Get(node, "default"), None);
    var permission := TextOr(node, "permission", "");
    var choices: seq<string> := [];
    if Has(node, "choice") {
      var items := Elements(Get(node, "choice").value);
      var i := 0;
      while i < |items|
        invariant i <= |items|
        invariant choices == Texts(items[..i])
        decreases |items| - i
      {
        assert items[..i + 1] == items[..i] + [items[i]];
        choices := choices + [AsText(items[i])];
        i := i + 1;
      }
      assert items[..i] == items;
    }
    return Ok(Tag(description, tagType, defaultValue, permission, choices));
  }

  /**
   * What the constructor reads: description and permission default to "",
   * the type to STRING, an unknown type name is an error, the choices are
   * the element texts in order, and an absent "default" leaves the default
   * null.
   */
  lemma TagOfFields(node: Json)
    ensures !Has(node, "type") ==> TagOf(node).Ok? && TagOf(node).value.tagType == STRING
    ensures Has(node, "type") ==>
      (TagOf(node).Ok? <==> TypeValueOf(ToUpper(AsText(Get(node, "type").value))).Ok?)
    ensures TagOf(node).Ok? && !Has(node, "description") ==> TagOf(node).value.description == ""
    ensures TagOf(node).Ok? && !Has(node, "permission") ==> TagOf(node).value.permission == ""
    ensures TagOf(node).Ok? && !Has(node, "default") ==> TagOf(node).value.defaultValue.None?
    ensures TagOf(node).Ok? && Has(node, "choice") ==>
      var items := Elements(Get(node, "choice").value);
      |TagOf(node).value.choices| == |items| &&
      forall i :: 0 <= i < |items| ==> TagOf(node).value.choices[i] == AsText(items[i])
    ensures TagOf(node).Ok? && !Has(node, "choice") ==> TagOf(node).value.choices == []
  {
  }

  /**
   * Because the default is parsed before the choices are read, a CHOICE
   * tag's default is always null, even when it names one of the choices.
   */
  lemma ChoiceDefaultIsNull(node: Json)
    requires TagOf(node).Ok? && TagOf(node).value.tagType == CHOICE
    ensures TagOf(node).value.defaultValue.None?
  {
  }

  /**
   * A CHOICE tag whose default is one of its own choices still has no
   * default, although the finished tag accepts that very choice.
   */
  lemma ChoiceDefaultLost(node: Json, a: string)
    requires Get(node, "type") == Some(JText("choice"))
    requires Get(node, "default") == Some(JText(a))
    requires Get(node, "choice") == Some(JArray([JText(a)]))
    ensures TagOf(node).Ok? && TagOf(node).value.defaultValue.None?
    ensures ParseNode(TagOf(node).value, Some(JText(a))) == Some(Text(a))
  {
    assert ToUpper("choice") == "CHOICE";
    assert TypeOf(node) == Ok(CHOICE);
    assert Texts([JText(a)]) == [a];
  }
}
