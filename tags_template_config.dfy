/**
 * TagsTemplateConfig: the bean form of a template's tag section (one
 * TagConfig per tag) and of its static/dynamic file lists, with the field
 * defaults a fresh bean starts from and TagConfig.validate.
 */
module TagsTemplateConfig {
  import opened Wrappers
  import opened JavaText
  import TD = TagDefinitions

  /** TagsTemplate.TagType: the types this generation of the schema knows. */
  datatype TagType = INT | STRING | BOOLEAN

  /**
   * Every field is a nullable reference: `required` is a boxed Boolean and
   * `choices` maps each choice to its description.
   */
  datatype TagConfig = TagConfig(
    description: Option<string>,
    required: Option<bool>,
    defaultValue: Option<string>,
    tagType: Option<TagType>,
    permission: Option<string>,
    choices: Option<map<string, string>>)

  /** A freshly constructed TagConfig: description "" and required false, every other field null. */
  function NewTagConfig(): TagConfig {
    TagConfig(Some(""), Some(false), None, None, None, None)
  }

  /** Some choice key equals the input, ignoring case. */
  predicate MatchesSomeKey(choices: map<string, string>, input: string) {
    exists c :: c in choices && EqualsIgnoreCase(c, input)
  }

  /**
   * validate(input). Switching on a null type, or asking a null choice map
   * for its size, throws NullPointerException.
   */
  function Validate(c: TagConfig, input: string): Result<bool> {
    match c.tagType
    case None => Err(NullDereference)
    case Some(STRING) =>
      if c.choices.None? then Err(NullDereference)
      else Ok(|c.choices.value| == 0 || MatchesSomeKey(c.choices.value, input))
    case Some(INT) => Ok(TD.IsIntText(input))
    case Some(BOOLEAN) => Ok(TD.IsBooleanText(input))
  }

  /**
   * What validate answers: an error exactly when the type, or a STRING's
   * choice map, is null; otherwise STRING accepts anything when there are
   * no choices and else exactly a choice key up to case, INT accepts the
   * Integer.valueOf texts and BOOLEAN "true"/"false" in any case.
   */
  lemma ValidateCases(c: TagConfig, input: string)
    ensures Validate(c, input).Err? <==> c.tagType.None? || (c.tagType == Some(STRING) && c.choices.None?)
    ensures Validate(c, input).Err? ==> Validate(c, input).error == NullDereference
    ensures c.tagType == Some(STRING) && c.choices == Some(map[]) ==> Validate(c, input) == Ok(true)
    ensures c.tagType == Some(STRING) && c.choices.Some? && |c.choices.value| > 0 ==>
      (Validate(c, input) == Ok(true) <==> exists k :: k in c.choices.value && ToLower(k) == ToLower(input))
    ensures c.tagType == Some(INT) ==> Validate(c, input) == Ok(ParseJavaInt(input).Some?)
    ensures c.tagType == Some(BOOLEAN) ==>
      Validate(c, input) == Ok(ToLower(input) == "true" || ToLower(input) == "false")
  {
    TD.BooleanTextIffLowered(input);
    if c.tagType == Some(STRING) && c.choices.Some? {
      var m := c.choices.value;
      if MatchesSomeKey(m, input) {
        var k :| k in m && EqualsIgnoreCase(k, input);
        EqualsIgnoreCaseIffLowerEqual(k, input);
      }
      if k :| k in m && ToLower(k) == ToLower(input) {
        EqualsIgnoreCaseIffLowerEqual(k, input);
      }
    }
  }

  /**
   * The two schema generations agree where they overlap: INT and BOOLEAN
   * validate alike, and a STRING config without choices accepts what a
   * STRING TagDefinition accepts.
   */
  lemma ValidateAgreesWithTagDefinition(c: TagConfig, d: TD.TagDefinition, input: string)
    requires c.tagType.Some?
    requires c.tagType.value == INT ==> d.tagType == TD.INT
    requires c.tagType.value == BOOLEAN ==> d.tagType == TD.BOOLEAN
    requires c.tagType.value == STRING ==> d.tagType == TD.STRING && c.choices == Some(map[])
    ensures Validate(c, input) == Ok(TD.Validate(d, input))
  {
  }

  /**
   * A TagConfig whose type was never set cannot validate anything: a fresh
   * one throws for every input, and setting only its type to STRING still
   * throws, on the null choice map.
   */
  lemma FreshTagConfigThrows(input: string)
    ensures Validate(NewTagConfig(), input) == Err(NullDereference)
    ensures NewTagConfig().tagType.None? && NewTagConfig().choices.None?
    ensures Validate(NewTagConfig().(tagType := Some(STRING)), input) == Err(NullDereference)
  {
    ValidateCases(NewTagConfig(), input);
    ValidateCases(NewTagConfig().(tagType := Some(STRING)), input);
  }

  /** TagsTemplateConfig.TemplatesConfig: the static and dynamic template file lists. */
  datatype TemplatesConfig = TemplatesConfig(staticFiles: seq<string>, dynamicFiles: seq<string>)

  /** A freshly constructed TemplatesConfig has both lists empty. */
  function NewTemplatesConfig(): TemplatesConfig {
    TemplatesConfig([], [])
  }

  /** The whole section: a tag name to TagConfig map (initially empty) and a null TemplatesConfig. */
  datatype Config = Config(tags: map<string, TagConfig>, templates: Option<TemplatesConfig>)

  function NewConfig(): Config {
    Config(map[], None)
  }
}
