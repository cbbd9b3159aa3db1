/**
 * TagDefinition: the declared schema of one tag (its type, default,
 * permission and choices) and the rules a proposed value must satisfy.
 */
module TagDefinitions {
  import opened Wrappers
  import opened JavaText

  /** The value types a tag can declare. */
  datatype TypeEnum = NULL | STRING | INT | BOOLEAN | CHOICE

  /** The constant's name, as Enum.name() gives it. */
  function TypeName(t: TypeEnum): string {
    match t
    case NULL => "NULL"
    case STRING => "STRING"
    case INT => "INT"
    case BOOLEAN => "BOOLEAN"
    case CHOICE => "CHOICE"
  }

  /** TypeEnum.valueOf: the constant with exactly this name, else IllegalArgumentException. */
  function TypeValueOf(name: string): (r: Result<TypeEnum>)
    ensures r.Ok? ==> TypeName(r.value) == name
  {
    if name == "NULL" then Ok(NULL)
    else if name == "STRING" then Ok(STRING)
    else if name == "INT" then Ok(INT)
    else if name == "BOOLEAN" then Ok(BOOLEAN)
    else if name == "CHOICE" then Ok(CHOICE)
    else Err(IllegalArgument)
  }

  /** Every constant is found again by its own name. */
  lemma TypeValueOfName(t: TypeEnum)
    ensures TypeValueOf(TypeName(t)) == Ok(t)
  {
  }

  /** Integer.valueOf(input) succeeds. */
  predicate IsIntText(input: string) {
    ParseJavaInt(input).Some?
  }

  /** input.equalsIgnoreCase("true") || input.equalsIgnoreCase("false"). */
  predicate IsBooleanText(input: string) {
    EqualsIgnoreCase(input, "true") || EqualsIgnoreCase(input, "false")
  }

  /** The boolean texts are exactly those whose lower-case form is "true" or "false". */
  lemma BooleanTextIffLowered(input: string)
    ensures IsBooleanText(input) <==> ToLower(input) == "true" || ToLower(input) == "false"
  {
    EqualsIgnoreCaseIffLowerEqual(input, "true");
    EqualsIgnoreCaseIffLowerEqual(input, "false");
    assert ToLower("true") == "true";
    assert ToLower("false") == "false";
  }

  /**
   * The nullable String fields are Options. `choices` is an initialised final
   * field, which the builder does not set: every definition the builder makes
   * has an empty choice list.
   */
  datatype TagDefinition = TagDefinition(
    name: Option<string>,
    description: Option<string>,
    tagType: TypeEnum,
    defaultValue: Option<string>,
    permission: Option<string>,
    required: bool,
    choices: seq<string>)

  /** Some choice equals the input, ignoring case. */
  predicate MatchesSomeChoice(choices: seq<string>, input: string) {
    exists i :: 0 <= i < |choices| && EqualsIgnoreCase(choices[i], input)
  }

  /** validate(input). */
  predicate Validate(d: TagDefinition, input: string)
  {
    match d.tagType
    case NULL => false
    case STRING => true
    case INT => IsIntText(input)
    case BOOLEAN => IsBooleanText(input)
    case CHOICE => MatchesSomeChoice(d.choices, input)
  }

  /**
   * What validate accepts, type by type: nothing for NULL, everything for
   * STRING, the Integer.valueOf texts for INT, "true"/"false" in any case for
   * BOOLEAN, a case-insensitive choice for CHOICE (so nothing when there are
   * no choices).
   */
  lemma ValidateByType(d: TagDefinition, input: string)
    ensures d.tagType == NULL ==> !Validate(d, input)
    ensures d.tagType == STRING ==> Validate(d, input)
    ensures d.tagType == INT ==> (Validate(d, input) <==> ParseJavaInt(input).Some?)
    ensures d.tagType == BOOLEAN ==> (Validate(d, input) <==> ToLower(input) == "true" || ToLower(input) == "false")
    ensures d.tagType == CHOICE ==> (Validate(d, input) <==> exists c :: c in d.choices && ToLower(c) == ToLower(input))
    ensures d.tagType == CHOICE && d.choices == [] ==> !Validate(d, input)
  {
    BooleanTextIffLowered(input);
    if d.tagType == CHOICE {
      if Validate(d, input) {
        var i :| 0 <= i < |d.choices| && EqualsIgnoreCase(d.choices[i], input);
        EqualsIgnoreCaseIffLowerEqual(d.choices[i], input);
      }
      if c :| c in d.choices && ToLower(c) == ToLower(input) {
        var i :| 0 <= i < |d.choices| && d.choices[i] == c;
        EqualsIgnoreCaseIffLowerEqual(c, input);
      }
    }
  }

  /** options(): the values offered for completion. */
  function Options(d: TagDefinition): seq<string> {
    match d.tagType
    case BOOLEAN => ["true", "false"]
    case CHOICE => d.choices
    case _ => []
  }

  /** Every offered option passes validate. */
  lemma OptionsValidate(d: TagDefinition, o: string)
    requires o in Options(d)
    ensures Validate(d, o)
  {
    if d.tagType == CHOICE {
      var i :| 0 <= i < |d.choices| && d.choices[i] == o;
      EqualsIgnoreCaseReflexive(o);
    }
  }
}
