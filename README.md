# MyServer core in Dafny

MyServer is a Minecraft server manager that runs as a BungeeCord plugin. It
creates game server instances from templates, keeps each instance's settings
in a YAML record, renders configuration files from tag values, and starts,
pings and stops each server process behind the proxy. This project models
that core and proves properties of it:

- **Templates** (`ApiTemplates`, `TemplateManagers`, `ServerTemplates`,
  `TemplateVanilla`, `Sections`): a template's parents are resolved through
  the template manager. The inheritance walk `getAllNodes` visits each
  document once, own node first, and terminates on cyclic graphs. Loading
  is cached, resolves a template type by its longest registered prefix,
  and refuses a name that is already locked. The model assumes a template's
  constructor loads each parent back through the manager's
  definition-based `loadTemplate`; under that assumption the lock list
  turns every parent loop into a failure. Tag tables and section
  values are first-wins over the walk, so a template's own definitions
  override its ancestors'.
- **Tags** (`ApiTag`, `TagDefinitions`, `TagsTemplateConfig`,
  `TagsTemplates`, `JavaText`): tag declarations, parsing a YAML value by
  its tag type, and validation. The model includes Java's `Integer.valueOf`
  with its exact 32-bit range and ASCII case folding.
- **Discovery** (`LocalTemplateDefinitions`, `LocalTemplateLoaders`,
  `Discovery`): parsing `type:name@version` with the regular expression the
  loader uses. The directory walk that prunes a manifest's sub-directories
  is modelled too: on a pre-order walk no two taken directories are nested.
- **Templater** (`SimpleTemplater`): `{{ name }}` substitution, re-scanned
  until nothing changes, at most 20 passes and then "Too many recursions".
  Unbound placeholders are kept and values are inserted literally. Files
  are processed line by line.
- **Server records** (`ServerData`, `BaseServers`, `TemplatesVanilla`):
  `saveData`/`loadData` with a proved round trip, `getTag`/`getAllTags`
  (overrides over defaults), file rendering, and `createServer`'s
  validation order.
- **Platform templates** (`FileStore`, `VanillaTemplates`,
  `PaperTemplates`, `SpigotTemplates`): cached jar downloads. An update
  reports a change iff a cached file was missing, and a second update
  changes nothing.
- **Lifecycle** (`Servers`, `ServerManagers`, `Bungee`): the state machine
  of `start`, `startServer`, `ping` and `stop` with its status gates; the
  required-tag check, which runs before any file is touched; the instance
  registry; the server manager's uuid-keyed cache; and the Bungee port
  reservation and proxy registration.

The file system, the server process, the network and the clock are not
modelled. Their results enter as parameters: a set of existing paths, an
`Outcome` for a preparation, spawn or proxy entry, and booleans for a
download, build, patch or ping. YAML documents are a small `Json` datatype
with Jackson's text and number coercions.

## Model

| member | source | states |
|---|---|---|
| SimpleTemplater.Templater.constructor | common/src/main/java/au/com/grieve/myserver/SimpleTemplater.java:42-43 | A new templater has no bindings. |
| SimpleTemplater.Templater.Register | common/src/main/java/au/com/grieve/myserver/SimpleTemplater.java:45-48 | register(key, value) binds the key, overwriting any previous binding and leaving every other binding alone. |
| SimpleTemplater.Templater.RegisterAll | common/src/main/java/au/com/grieve/myserver/SimpleTemplater.java:50-55 | register(map) puts every entry, overwriting existing keys: the bindings become the old ones overridden by the map. |
| SimpleTemplater.MatchAt | common/src/main/java/au/com/grieve/myserver/SimpleTemplater.java:64 | A placeholder match starting at i spans at least `{{x}}`, ends inside the text, and captures a non-empty name. |
| SimpleTemplater.ScanPass | common/src/main/java/au/com/grieve/myserver/SimpleTemplater.java:67-79 | One pass of the find/appendReplacement loop produces the pass text and reports whether a bound placeholder was met. |
| SimpleTemplater.ScanStep | common/src/main/java/au/com/grieve/myserver/SimpleTemplater.java:71-79 | One iteration of the find loop moves the scan forward and keeps what the pass will emit and report unchanged. |
| SimpleTemplater.PassStep | common/src/main/java/au/com/grieve/myserver/SimpleTemplater.java:71-79 | A pass is the chunk at the scan position followed by the pass from where the scan resumes. It finds a bound placeholder iff there is one here or later. |
| SimpleTemplater.Templater.Replace | common/src/main/java/au/com/grieve/myserver/SimpleTemplater.java:63-89 | replace returns exactly what the bounded re-scanning specification gives: at most 20 passes, then "Too many recursions". |
| SimpleTemplater.UnboundChunkCopies | common/src/main/java/au/com/grieve/myserver/SimpleTemplater.java:73-74 | A chunk that substitutes nothing is the scanned text itself. |
| SimpleTemplater.UnboundPassCopies | common/src/main/java/au/com/grieve/myserver/SimpleTemplater.java:71-83 | A pass that meets no bound placeholder reproduces its input verbatim. |
| SimpleTemplater.RenderResultIsFixed | common/src/main/java/au/com/grieve/myserver/SimpleTemplater.java:66-88 | Whatever replace returns contains no bound placeholder, so a further pass would change nothing. |
| SimpleTemplater.NoBoundPlaceholderIsFixedPoint | common/src/main/java/au/com/grieve/myserver/SimpleTemplater.java:81-83 | Text without bound placeholders is returned unchanged, whatever budget is left. |
| SimpleTemplater.SelfPassOnce | common/src/main/java/au/com/grieve/myserver/SimpleTemplater.java:71-79 | A pass over "{{a}}" with a bound to "{{a}}" reproduces the input and reports a substitution. |
| SimpleTemplater.SelfReferenceThrows | common/src/main/java/au/com/grieve/myserver/SimpleTemplater.java:66-88 | A variable bound to its own placeholder makes replace throw for every budget; it never loops forever. |
| SimpleTemplater.SpacesEndOfRun | common/src/main/java/au/com/grieve/myserver/SimpleTemplater.java:64 | The ` *` part of the pattern consumes exactly a run of spaces. |
| SimpleTemplater.NameEndOfRun | common/src/main/java/au/com/grieve/myserver/SimpleTemplater.java:64 | The `[^} ]+` part of the pattern consumes exactly a run of name characters. |
| SimpleTemplater.PlaceholderMatches | common/src/main/java/au/com/grieve/myserver/SimpleTemplater.java:64 | "{{", spaces, a name without `}` or space, spaces, "}}" is one match capturing exactly that name. |
| SimpleTemplater.LonePlaceholderPass | common/src/main/java/au/com/grieve/myserver/SimpleTemplater.java:71-79 | A pass over a lone placeholder emits its value when bound, the placeholder itself when not, and reports which. |
| SimpleTemplater.BoundPlaceholderReplacedLiterally | common/src/main/java/au/com/grieve/myserver/SimpleTemplater.java:76-77 | A bound placeholder is replaced by its value literally (`$` and `\` are not special). |
| SimpleTemplater.UnboundPlaceholderKept | common/src/main/java/au/com/grieve/myserver/SimpleTemplater.java:73-74 | A placeholder whose name is absent or bound to null is copied through unchanged. |
| SimpleTemplater.TabIsPartOfName | common/src/main/java/au/com/grieve/myserver/SimpleTemplater.java:64 | Only the space is skipped around a name: "{{\ta}}" does not refer to a. |
| SimpleTemplater.SubstitutionIsRescanned | common/src/main/java/au/com/grieve/myserver/SimpleTemplater.java:85-86 | Substituted text is scanned again on the next pass. |
| SimpleTemplater.Templater.Process | common/src/main/java/au/com/grieve/myserver/SimpleTemplater.java:99-105 | process writes each line's rendering followed by one line separator, and stops at the first line whose rendering throws. |
| SimpleTemplater.ProcessLinesPrefix | common/src/main/java/au/com/grieve/myserver/SimpleTemplater.java:100-103 | Line n after lines that rendered: its text and a separator are appended, or its failure ends the run with what was written. |
| SimpleTemplater.ProcessLinesAppend | common/src/main/java/au/com/grieve/myserver/SimpleTemplater.java:100-103 | Lines are rendered independently: processing a + b is processing a, then b if a went through. |
| SimpleTemplater.ProcessSingleLine | common/src/main/java/au/com/grieve/myserver/SimpleTemplater.java:101-102 | One line that renders is written followed by exactly one separator. |
| SimpleTemplater.SplitPlaceholderNotSubstituted | common/src/main/java/au/com/grieve/myserver/SimpleTemplater.java:100-103 | A placeholder split across two lines is not substituted. |
| TagDefinitions.TypeValueOf | common/src/main/java/au/com/grieve/myserver/api/Tag.java:45 | TypeEnum.valueOf only answers a constant whose name is exactly the text. |
| TagDefinitions.TypeValueOfName | common/src/main/java/au/com/grieve/myserver/api/Tag.java:45 | Every type constant is found by its own name. |
| TagDefinitions.BooleanTextIffLowered | common/src/main/java/au/com/grieve/myserver/api/TagDefinition.java:66-67 | The BOOLEAN texts are exactly those whose lower-case form is "true" or "false". |
| TagDefinitions.ValidateByType | common/src/main/java/au/com/grieve/myserver/api/TagDefinition.java:53-73 | validate: NULL rejects all, STRING accepts all, INT accepts exactly Integer.valueOf texts, BOOLEAN "true"/"false" in any case, CHOICE a choice up to case; no choices rejects everything. |
| TagDefinitions.OptionsValidate | common/src/main/java/au/com/grieve/myserver/api/TagDefinition.java:75-87 | options() is ["true","false"] for BOOLEAN, the choices for CHOICE, empty otherwise; every option passes validate. |
| JavaText.ToUpper | common/src/main/java/au/com/grieve/myserver/api/Tag.java:45 | String.toUpperCase on ASCII: same length, each character upper-cased. |
| JavaText.ToLower | common/src/main/java/au/com/grieve/myserver/api/TagDefinition.java:67 | String.toLowerCase on ASCII: same length, each character lower-cased. |
| JavaText.EqualsIgnoreCaseIffLowerEqual | common/src/main/java/au/com/grieve/myserver/api/TagDefinition.java:67-70 | equalsIgnoreCase is equality of the lower-cased forms. |
| JavaText.ParseJavaInt | common/src/main/java/au/com/grieve/myserver/api/TagDefinition.java:59-65 | Integer.valueOf only succeeds on a signed or unsigned digit text, with a 32-bit result. |
| JavaText.ParseIntToString | common/src/main/java/au/com/grieve/myserver/api/TagDefinition.java:59-65 | Integer.valueOf(Integer.toString(n)) == n for every 32-bit n. |
| JavaText.ParseJavaIntRejectsMalformed | common/src/main/java/au/com/grieve/myserver/api/TagDefinition.java:59-65 | Empty text, a lone sign, spaces, trailing letters and a double sign are NumberFormatExceptions. |
| JavaText.ParseJavaIntSignsAndZeros | common/src/main/java/au/com/grieve/myserver/api/TagDefinition.java:59-65 | A leading '+' and leading zeros are accepted. |
| JavaText.ParseJavaIntUpperBound | common/src/main/java/au/com/grieve/myserver/api/TagDefinition.java:59-65 | The accepted range ends exactly at 2147483647. |
| JavaText.ParseJavaIntLowerBound | common/src/main/java/au/com/grieve/myserver/api/TagDefinition.java:59-65 | The accepted range starts exactly at -2147483648. |
| JavaText.Int32Wrap | common/src/main/java/au/com/grieve/myserver/api/Tag.java:74 | The (int) cast of a long: a 32-bit value congruent to n modulo 2^32, n itself when n fits. |
| JavaText.TrimFrom | common/src/main/java/au/com/grieve/myserver/api/Tag.java:74-76 | The first character String.trim keeps: all before it are at or below the space. |
| JavaText.TrimTo | common/src/main/java/au/com/grieve/myserver/api/Tag.java:74-76 | The end of what String.trim keeps: all after it are at or below the space. |
| JavaText.Trim | common/src/main/java/au/com/grieve/myserver/api/Tag.java:74-76 | String.trim is a slice of the text, all cut characters at or below the space, itself neither starting nor ending with one. |
| JavaText.TrimIdempotent | common/src/main/java/au/com/grieve/myserver/api/Tag.java:74-76 | Trimming twice is trimming once. |
| Json.AsInt | common/src/main/java/au/com/grieve/myserver/api/Tag.java:74 | asInt is always a 32-bit value. |
| Json.AsBooleanExamples | common/src/main/java/au/com/grieve/myserver/api/Tag.java:76 | asBoolean ignores the padding of " true\n" and is false for "yes". |
| Json.AsIntTextExamples | common/src/main/java/au/com/grieve/myserver/api/Tag.java:74 | asInt reads " 7" as 7 and "7a" as 0. |
| Json.AsIntWrapExamples | common/src/main/java/au/com/grieve/myserver/api/Tag.java:74 | asInt of 2147483648 is -2147483648, and of 2^32 + 7 is 7. |
| TagsTemplateConfig.ValidateCases | common/src/main/java/au/com/grieve/myserver/api/templates/TagsTemplateConfig.java:67-82 | Errors exactly on a null type or a STRING with null choices; STRING with no choices accepts all, else a choice key up to case; INT the Integer.valueOf texts; BOOLEAN "true"/"false" up to case. |
| TagsTemplateConfig.ValidateAgreesWithTagDefinition | common/src/main/java/au/com/grieve/myserver/api/templates/TagsTemplateConfig.java:67-82 | Where the two schema generations overlap (INT, BOOLEAN, STRING without choices) they validate alike. |
| TagsTemplateConfig.FreshTagConfigThrows | common/src/main/java/au/com/grieve/myserver/api/templates/TagsTemplateConfig.java:42-82 | A fresh TagConfig (description "", required false, everything else null) throws on validate, and still throws with only its type set to STRING. |
| ApiTag.ParseNodeCases | common/src/main/java/au/com/grieve/myserver/api/Tag.java:55-84 | parseNode: a null node gives the default (null for the one-argument form); STRING the text, INT/BOOLEAN the coercions, CHOICE the text iff it is exactly a choice, NULL gives null. |
| ApiTag.NewTag | common/src/main/java/au/com/grieve/myserver/api/Tag.java:43-53 | The constructor, choices loop included, builds exactly the specified Tag or throws its error. |
| ApiTag.TagOfFields | common/src/main/java/au/com/grieve/myserver/api/Tag.java:43-53 | Type STRING when absent, an unknown type name is an error; description and permission default to ""; an absent default is null; choices are the element texts in order. |
| ApiTag.ChoiceDefaultIsNull | common/src/main/java/au/com/grieve/myserver/api/Tag.java:46-52 | The default is parsed before choices are read, so a CHOICE tag's default is always null. |
| ApiTag.ChoiceDefaultLost | common/src/main/java/au/com/grieve/myserver/api/Tag.java:43-79 | A CHOICE default naming one of its own choices is still null, although the built tag accepts that choice. |
| TagsTemplates.TagsTemplate.constructor | common/src/main/java/au/com/grieve/myserver/templates/TagsTemplate.java:98-99 | Both tables start empty. |
| TagsTemplates.TagsTemplate.RunInitializers | common/src/main/java/au/com/grieve/myserver/templates/TagsTemplate.java:101-136 | The two initializers in order: success iff both sections build; the tables are then the specified ones; a missing "tags" section is a null dereference. |
| TagsTemplates.TagsTemplate.PutTags | common/src/main/java/au/com/grieve/myserver/templates/TagsTemplate.java:101-114 | The first initializer's loop leaves exactly the specified tag table and touches no file list. |
| TagsTemplates.TagsTemplate.AddFileLists | common/src/main/java/au/com/grieve/myserver/templates/TagsTemplate.java:116-136 | The second initializer's loop succeeds iff the file table builds and then leaves exactly that table. |
| TagsTemplates.TagsTemplate.AppendPaths | common/src/main/java/au/com/grieve/myserver/templates/TagsTemplate.java:133-135 | The paths of one list are appended, in order, to their class's list. |
| TagsTemplates.TagsTableContents | common/src/main/java/au/com/grieve/myserver/templates/TagsTemplate.java:101-114 | Every "tags" entry becomes a definition named by its key (the last entry per key wins), with the builder's field defaults. |
| TagsTemplates.TagDefOfFields | common/src/main/java/au/com/grieve/myserver/templates/TagsTemplate.java:105-112 | Type STRING when absent; description, default and permission null when absent; required iff present and true; choices empty. |
| TagsTemplates.BuiltChoiceRejectsEverything | common/src/main/java/au/com/grieve/myserver/templates/TagsTemplate.java:105-112 | The builder never sets choices, so a CHOICE tag declared here rejects every input. |
| TagsTemplates.FilesTableOk | common/src/main/java/au/com/grieve/myserver/templates/TagsTemplate.java:116-136 | Building the file lists fails exactly when a key is not a class name or a list is not an array, as InvalidTemplateException. |
| TagsTemplates.FilesTableClass | common/src/main/java/au/com/grieve/myserver/templates/TagsTemplate.java:130-135 | A class is present iff some entry names it, and holds all its paths in document order. |
| TagsTemplates.FilesTableContents | common/src/main/java/au/com/grieve/myserver/templates/TagsTemplate.java:130-135 | On success every class present maps to all its paths in document order. |
| TagsTemplates.PathsOfAbsentClass | common/src/main/java/au/com/grieve/myserver/templates/TagsTemplate.java:130-135 | A class no entry names collects no paths. |
| TagsTemplates.TagsTableErrorPersists | common/src/main/java/au/com/grieve/myserver/templates/TagsTemplate.java:101-114 | Once a tag entry fails, the whole initializer fails. |
| TagsTemplates.FilesTableErrorPersists | common/src/main/java/au/com/grieve/myserver/templates/TagsTemplate.java:116-136 | Once a file entry fails, the whole initializer fails. |
| LocalTemplateDefinitions.RunFromSkips | common/src/main/java/au/com/grieve/myserver/loaders/local/LocalTemplateDefinition.java:45 | The `[^:]+` and `[^@]+` groups each run to the first ':' or '@' respectively, or to the end. |
| LocalTemplateDefinitions.RunFromStops | common/src/main/java/au/com/grieve/myserver/loaders/local/LocalTemplateDefinition.java:45 | A run whose first `stop` is at j ends exactly at j. |
| LocalTemplateDefinitions.LineEndFromSkips | common/src/main/java/au/com/grieve/myserver/loaders/local/LocalTemplateDefinition.java:45 | The `.+` group runs to the first line terminator. |
| LocalTemplateDefinitions.MatchAt | common/src/main/java/au/com/grieve/myserver/loaders/local/LocalTemplateDefinition.java:45 | A match of `([^:]+):([^@]+)@(.+)` has three non-empty groups. |
| LocalTemplateDefinitions.MatchAtSound | common/src/main/java/au/com/grieve/myserver/loaders/local/LocalTemplateDefinition.java:45 | A match found at i is well formed and is exactly the text at i. |
| LocalTemplateDefinitions.FindSound | common/src/main/java/au/com/grieve/myserver/loaders/local/LocalTemplateDefinition.java:67-70 | Whatever find returns is a well-formed full name occurring in the text. |
| LocalTemplateDefinitions.SplitCompose | common/src/main/java/au/com/grieve/myserver/loaders/local/LocalTemplateDefinition.java:64-74 | Splitting type:name@version gives the three parts back. |
| LocalTemplateDefinitions.LeadingColonSkipped | common/src/main/java/au/com/grieve/myserver/loaders/local/LocalTemplateDefinition.java:67-70 | find is leftmost: a leading ':' is skipped, not rejected. |
| LocalTemplateDefinitions.VersionStopsAtLineBreak | common/src/main/java/au/com/grieve/myserver/loaders/local/LocalTemplateDefinition.java:45 | The version stops at the first line break. |
| LocalTemplateDefinitions.MissingVersionNoMatch | common/src/main/java/au/com/grieve/myserver/loaders/local/LocalTemplateDefinition.java:67-70 | Without an '@' after the colon nothing matches. |
| LocalTemplateDefinitions.NewDefinition | common/src/main/java/au/com/grieve/myserver/loaders/local/LocalTemplateDefinition.java:58-77 | The constructor fails only with a null dereference or InvalidTemplateException. |
| LocalTemplateDefinitions.NewDefinitionParts | common/src/main/java/au/com/grieve/myserver/loaders/local/LocalTemplateDefinition.java:64-76 | A manifest named type:name@version yields exactly those fields. |
| LocalTemplateDefinitions.NewDefinitionErrors | common/src/main/java/au/com/grieve/myserver/loaders/local/LocalTemplateDefinition.java:64-70 | A missing "name" is a null dereference; an unmatched name is InvalidTemplateException. |
| LocalTemplateDefinitions.DescriptionNeverReturned | common/src/main/java/au/com/grieve/myserver/loaders/local/LocalTemplateDefinition.java:76-82 | The description field is the manifest's text or "", but getDescription is always null. |
| LocalTemplateDefinitions.GetDataIsManifest | common/src/main/java/au/com/grieve/myserver/loaders/local/LocalTemplateDefinition.java:84-87 | getData returns the parsed manifest unchanged. |
| Discovery.StartsWithReflexive | common/src/main/java/au/com/grieve/myserver/loaders/local/LocalTemplateLoader.java:61 | Every path starts with itself. |
| Discovery.StartsWithIsPrefix | common/src/main/java/au/com/grieve/myserver/loaders/local/LocalTemplateLoader.java:61 | Path.startsWith is the component-wise prefix relation. |
| Discovery.LastTaken | common/src/main/java/au/com/grieve/myserver/loaders/local/LocalTemplateLoader.java:54-62 | The loop's lastPath is an earlier candidate. |
| Discovery.LastTakenIsLatest | common/src/main/java/au/com/grieve/myserver/loaders/local/LocalTemplateLoader.java:54-62 | lastPath is the latest taken candidate, and null only when none was taken. |
| Discovery.SkippedLiesUnderTaken | common/src/main/java/au/com/grieve/myserver/loaders/local/LocalTemplateLoader.java:60-62 | A skipped directory lies under a directory taken before it. |
| Discovery.TakenNotNested | common/src/main/java/au/com/grieve/myserver/loaders/local/LocalTemplateLoader.java:60-62 | On a pre-order walk no taken directory lies under another taken one. |
| Discovery.TakenApart | common/src/main/java/au/com/grieve/myserver/ServerManager.java:96-98 | The same for the servers walk: accepted instance directories are never nested. |
| LocalTemplateLoaders.Paths | common/src/main/java/au/com/grieve/myserver/loaders/local/LocalTemplateLoader.java:55-58 | The candidate directories, in walk order. |
| LocalTemplateLoaders.FindTemplatesByName | common/src/main/java/au/com/grieve/myserver/loaders/local/LocalTemplateLoader.java:46-81 | An empty result when the root is missing, otherwise the name index of the walk; `search` is never read. |
| LocalTemplateLoaders.IndexStep | common/src/main/java/au/com/grieve/myserver/loaders/local/LocalTemplateLoader.java:61-69 | One more candidate changes a name's entry only when it is taken and names itself so. |
| LocalTemplateLoaders.LastNamedExtends | common/src/main/java/au/com/grieve/myserver/loaders/local/LocalTemplateLoader.java:61-69 | A candidate not naming itself `name` keeps the last one that did. |
| LocalTemplateLoaders.IndexContents | common/src/main/java/au/com/grieve/myserver/loaders/local/LocalTemplateLoader.java:61-69 | A name is indexed iff some taken readable manifest has it, and maps to the last such directory. |
| LocalTemplateLoaders.IndexedPathTaken | common/src/main/java/au/com/grieve/myserver/loaders/local/LocalTemplateLoader.java:61-69 | Every indexed directory was taken by the walk. |
| LocalTemplateLoaders.IndexNotNested | common/src/main/java/au/com/grieve/myserver/loaders/local/LocalTemplateLoader.java:53-74 | On a pre-order walk no two indexed directories are nested. |
| LocalTemplateLoaders.UnnamedManifestStillPrunes | common/src/main/java/au/com/grieve/myserver/loaders/local/LocalTemplateLoader.java:61-72 | A manifest without a name is not indexed but still prunes the named manifest below it. |
| TemplateManagers.ResolveTypeLongest | common/src/main/java/au/com/grieve/myserver/TemplateManager.java:207-216 | The class found is that of the longest registered non-empty prefix; none iff no non-empty prefix is registered. |
| TemplateManagers.TemplateManager.constructor | common/src/main/java/au/com/grieve/myserver/TemplateManager.java:59-75 | Nothing registered, cached or locked. |
| TemplateManagers.TemplateManager.RegisterTemplateType | common/src/main/java/au/com/grieve/myserver/TemplateManager.java:173-176 | Replaces any type under the name; nothing else changes. |
| TemplateManagers.TemplateManager.RegisterTemplateLoader | common/src/main/java/au/com/grieve/myserver/TemplateManager.java:185-188 | Replaces any loader under the name; nothing else changes. |
| TemplateManagers.TemplateManager.FindTemplatesByName | common/src/main/java/au/com/grieve/myserver/TemplateManager.java:83-89 | The concatenation of every loader's findings in map order. |
| TemplateManagers.FoundByContents | common/src/main/java/au/com/grieve/myserver/TemplateManager.java:83-89 | A definition is found iff some registered loader finds it. |
| TemplateManagers.TemplateManager.LoadTemplateByName | common/src/main/java/au/com/grieve/myserver/TemplateManager.java:91-97 | InvalidTemplateException iff no loader is registered; otherwise the first loader alone answers. |
| TemplateManagers.TemplateManager.FindTemplateType | common/src/main/java/au/com/grieve/myserver/TemplateManager.java:207-216 | The shortening loop finds exactly the longest-prefix class. |
| TemplateManagers.TemplateManager.LoadTemplate | common/src/main/java/au/com/grieve/myserver/TemplateManager.java:199-241 | Cache hit returned untouched; unknown type invalid before any lock; locked name a parent loop; success cached; locks always restored; no cached entry lost; a template from which uncached parents lead into a cycle, through any parent, fails. |
| TemplateManagers.TemplateManager.BuildLocked | common/src/main/java/au/com/grieve/myserver/TemplateManager.java:222-240 | Lock, construct, cache on success, unlock whatever happens; failures come back wrapped; a first-parent loop is the wrapped loop error and any parent cycle a failure. |
| TemplateManagers.TemplateManager.Construct | common/src/main/java/au/com/grieve/myserver/TemplateManager.java:229-237 | The constructor `newInstance` runs, assumed to load each parent through the manager in order; the first failure is thrown; a success has the definition's name and class, and all its parents cached before it. |
| TemplateManagers.TemplateManager.LoadParent | common/src/main/java/au/com/grieve/myserver/TemplateManager.java:229-233 | One parent loaded, as assumed, by a re-entrant loadTemplate: a locked uncached parent is the loop error; a success is cached; earlier cache entries keep their order. |
| TemplateManagers.TemplateManager.Cache | common/src/main/java/au/com/grieve/myserver/TemplateManager.java:233 | put into templateInstances: exactly that entry is added, and a template cached after its parents lies on no cycle of templates uncached before. |
| TemplateManagers.TemplateManager.Release | common/src/main/java/au/com/grieve/myserver/TemplateManager.java:239 | templateLocks.remove restores the lock list to what it was before the lock; nothing else changes. |
| TemplateManagers.GrowsCompose | common/src/main/java/au/com/grieve/myserver/TemplateManager.java:229-233 | Two stretches of caching, each caching a template only after its parents, compose into one. |
| TemplateManagers.ChainDescends | common/src/main/java/au/com/grieve/myserver/TemplateManager.java:229-233 | Along a chain of parents from a newly cached template, every template was cached earlier than the ones before it. |
| TemplateManagers.FreshNotOnCycle | common/src/main/java/au/com/grieve/myserver/TemplateManager.java:229-233 | A template cached after all its parents does not lie on a parent cycle of templates that were uncached before. |
| TemplateManagers.LoopSurvivesLock | common/src/main/java/au/com/grieve/myserver/TemplateManager.java:224-227 | Locking the name itself keeps a parent loop a loop. |
| TemplateManagers.RemoveAppended | common/src/main/java/au/com/grieve/myserver/TemplateManager.java:227-239 | Removing the name just locked restores the lock list. |
| TemplateManagers.ResolveByPrefixExample | common/src/main/java/au/com/grieve/myserver/TemplateManager.java:207-216 | "server-vanilla" resolves to the class registered as "server". |
| TemplateManagers.SelfParentExample | common/src/main/java/au/com/grieve/myserver/TemplateManager.java:222-226 | A template that is its own first parent fails with the wrapped parent-loop error, when constructors load parents through the manager. |
| TemplateManagers.LaterParentLoopExample | common/src/main/java/au/com/grieve/myserver/TemplateManager.java:222-233 | a names b then c, and c names a: the first parent is no loop, yet loading a fails, when constructors load parents through the manager. |
| ApiTemplates.NewTemplate | common/src/main/java/au/com/grieve/myserver/api/Template.java:46-56 | The constructor builds exactly the specified Template or throws the first parent failure. |
| ApiTemplates.FailurePersists | common/src/main/java/au/com/grieve/myserver/api/Template.java:50-55 | Once a parent fails to resolve, the constructor fails with that error. |
| ApiTemplates.ResolveAllInOrder | common/src/main/java/au/com/grieve/myserver/api/Template.java:50-55 | The parents are the resolutions of the element texts, in document order. |
| ApiTemplates.TemplateOfFields | common/src/main/java/au/com/grieve/myserver/api/Template.java:46-56 | A missing name is a null dereference; the node, name and parents are stored. |
| ApiTemplates.AllNodesFrom | common/src/main/java/au/com/grieve/myserver/api/Template.java:67-85 | getAllNodes(current) returns exactly the reference walk: nothing when the own node is already visited; otherwise the own node, then each parent's walk from the list visited so far; `current` grows by exactly the result. |
| ApiTemplates.Walk | common/src/main/java/au/com/grieve/myserver/api/Template.java:67-85 | The reference walk of getAllNodes(current): the visited list only grows. |
| ApiTemplates.WalkPrefix | common/src/main/java/au/com/grieve/myserver/api/Template.java:75-82 | The walk over the own node and the first n parents starts with the own node, which is then visited. |
| ApiTemplates.WalkFacts | common/src/main/java/au/com/grieve/myserver/api/Template.java:67-85 | The reference walk has no duplicates, none of `current`, starts with the own node, and holds only ancestors' nodes, each expanded template's parents visited. |
| ApiTemplates.WalkPrefixFacts | common/src/main/java/au/com/grieve/myserver/api/Template.java:75-82 | After the own node and n parents the same holds, and those n parents' nodes are visited. |
| ApiTemplates.WalkPrefixExtends | common/src/main/java/au/com/grieve/myserver/api/Template.java:78-82 | Walking more parents only appends to the result. |
| ApiTemplates.WalkSegments | common/src/main/java/au/com/grieve/myserver/api/Template.java:75-80 | The walk starts with the own node followed by the whole walk of the first parent. |
| ApiTemplates.WalkStateStep | common/src/main/java/au/com/grieve/myserver/api/Template.java:78-82 | The walk invariant survives appending a parent's nodes. |
| ApiTemplates.GetAllNodes | common/src/main/java/au/com/grieve/myserver/api/Template.java:63-65 | getAllNodes() is the reference walk from an empty list: own node first, no node twice, every node from an ancestor; with distinct documents every ancestor's node is present; it terminates on cyclic graphs. |
| ApiTemplates.ExpandedClosed | common/src/main/java/au/com/grieve/myserver/api/Template.java:71-82 | The templates a full walk expands are closed under taking parents. |
| ApiTemplates.ReachableThroughParent | common/src/main/java/au/com/grieve/myserver/api/Template.java:78-79 | An ancestor of a parent is an ancestor. |
| ServerTemplates.BuildTagTable | common/src/main/java/au/com/grieve/myserver/template/server/ServerTemplate.java:59-66 | The nested loop produces the first-wins tag table of the walk, or the first Tag error. |
| ServerTemplates.PutTagsIfAbsent | common/src/main/java/au/com/grieve/myserver/template/server/ServerTemplate.java:61-64 | The inner putIfAbsent loop extends the table by one document's entries. |
| ServerTemplates.PutStep | common/src/main/java/au/com/grieve/myserver/template/server/ServerTemplate.java:63 | One putIfAbsent: the Tag is built always and put only when the key is absent. |
| ServerTemplates.TagEntriesAppend | common/src/main/java/au/com/grieve/myserver/template/server/ServerTemplate.java:59-61 | The entries of a joined walk are the joined entries. |
| ServerTemplates.TagTableFailurePersists | common/src/main/java/au/com/grieve/myserver/template/server/ServerTemplate.java:63 | Once a Tag fails to build, the constructor fails with that error. |
| ServerTemplates.TagTableFirstWins | common/src/main/java/au/com/grieve/myserver/template/server/ServerTemplate.java:63 | A key is present iff some entry has it, and maps to the Tag of its first entry. |
| ServerTemplates.TagTableOk | common/src/main/java/au/com/grieve/myserver/template/server/ServerTemplate.java:63 | Success iff every entry's Tag builds, shadowed or not. |
| ServerTemplates.TagEntriesLookup | common/src/main/java/au/com/grieve/myserver/template/server/ServerTemplate.java:59-65 | A key is defined iff some walked node defines it; the own node, walked first, decides. |
| ServerTemplates.OwnTagsWin | common/src/main/java/au/com/grieve/myserver/template/server/ServerTemplate.java:59-63 | The own node's definition of a tag is the one kept. |
| ServerTemplates.UntaggedNodeIgnored | common/src/main/java/au/com/grieve/myserver/template/server/ServerTemplate.java:60 | A node without "tags" contributes nothing. |
| ServerTemplates.NewServerTemplate | common/src/main/java/au/com/grieve/myserver/template/server/ServerTemplate.java:56-67 | Succeeds iff the tag table over getAllNodes() builds, holds that table, and otherwise fails with its error. |
| TemplateVanilla.ServerOf | common/src/main/java/au/com/grieve/myserver/template/server/vanilla/VanillaServer.java:50-91 | A missing name, then a missing uuid, is InvalidServerException; otherwise name and uuid are the texts; absent sections leave empty maps. |
| TemplateVanilla.NewVanillaServer | common/src/main/java/au/com/grieve/myserver/template/server/vanilla/VanillaServer.java:50-91 | The constructor builds exactly the specified server. |
| TemplateVanilla.ReadTags | common/src/main/java/au/com/grieve/myserver/template/server/vanilla/VanillaServer.java:75-90 | The tags loop builds exactly the specified map. |
| TemplateVanilla.TagValuesContents | common/src/main/java/au/com/grieve/myserver/template/server/vanilla/VanillaServer.java:79-88 | A declared tag holds its parsed value and is dropped when that is null; an undeclared tag holds its text. |
| TemplateVanilla.ChoiceOutsideChoicesDropped | common/src/main/java/au/com/grieve/myserver/template/server/vanilla/VanillaServer.java:82-84 | A CHOICE value outside its choices is dropped. |
| TemplateVanilla.NewVanillaServerTemplate | common/src/main/java/au/com/grieve/myserver/template/server/vanilla/VanillaServerTemplate.java:55-72 | Succeeds iff the ServerTemplate does, with that base; version and description are each first-wins over getAllNodes(), null when absent. |
| TemplateVanilla.InheritedFromFirstParent | common/src/main/java/au/com/grieve/myserver/template/server/vanilla/VanillaServerTemplate.java:55-72 | A field the own document leaves unset takes the first parent's inherited value when that sets it, ahead of later parents. |
| TemplateVanilla.CreateServer | common/src/main/java/au/com/grieve/myserver/template/server/vanilla/VanillaServerTemplate.java:74-77 | createServer always returns null. |
| TemplateVanilla.LoadServer | common/src/main/java/au/com/grieve/myserver/template/server/vanilla/VanillaServerTemplate.java:79-82 | loadServer builds a server from the node and propagates its errors. |
| Sections.ScanFirst | common/src/main/java/au/com/grieve/myserver/template/server/vanilla/VanillaServerTemplate.java:60-71 | The constructor loop keeps the first value offered for a field. |
| Sections.FirstTextIsFirst | common/src/main/java/au/com/grieve/myserver/templates/server/vanilla/VanillaServerTemplate.java:64-75 | The value is null iff no node sets it, else the first setting node's text. |
| Sections.OwnValueWins | common/src/main/java/au/com/grieve/myserver/templates/server/vanilla/VanillaServerTemplate.java:64-75 | The own node's value wins over every ancestor's. |
| Sections.FirstTextPrefix | common/src/main/java/au/com/grieve/myserver/templates/server/vanilla/VanillaServerTemplate.java:64-75 | Once a prefix of the walk sets the field, the rest of the walk changes nothing. |
| Sections.FirstTextSkipUnset | common/src/main/java/au/com/grieve/myserver/templates/server/vanilla/VanillaServerTemplate.java:64-75 | A first document that does not set the field is passed over. |
| ServerData.RenderFiles | common/src/main/java/au/com/grieve/myserver/templates/server/BaseServer.java:184-195 | The updateFiles loop leaves exactly the specified files and outcome. |
| ServerData.RenderedContents | common/src/main/java/au/com/grieve/myserver/templates/server/BaseServer.java:184-195 | Success iff every listed file exists and renders; each listed path then holds its rendering; other files are untouched. |
| ServerData.TextNodes | common/src/main/java/au/com/grieve/myserver/templates/server/BaseServer.java:96-99 | One text node per string, in order. |
| ServerData.SaveDocument | common/src/main/java/au/com/grieve/myserver/templates/server/BaseServer.java:88-109 | A null uuid is a null dereference; otherwise template, name and uuid are written, and permissions/tags only when non-empty. |
| ServerData.SavedRoot | common/src/main/java/au/com/grieve/myserver/templates/server/BaseServer.java:88-109 | The assembled root has the fixed fields and optional sections saveData promises. |
| ServerData.AppendFresh | common/src/main/java/au/com/grieve/myserver/templates/server/BaseServer.java:94-107 | Putting a new key keeps keys unique and only adds that key. |
| ServerData.WritePermissions | common/src/main/java/au/com/grieve/myserver/templates/server/BaseServer.java:93-101 | Each permission key gets its strings, each key once. |
| ServerData.WriteArray | common/src/main/java/au/com/grieve/myserver/templates/server/BaseServer.java:96-99 | permission.add for each string in order. |
| ServerData.WriteTags | common/src/main/java/au/com/grieve/myserver/templates/server/BaseServer.java:103-108 | Each tag key gets its text, each key once. |
| ServerData.ReadPermissions | common/src/main/java/au/com/grieve/myserver/templates/server/BaseServer.java:122-134 | The permissions loop builds exactly the specified map. |
| ServerData.ReadItems | common/src/main/java/au/com/grieve/myserver/templates/server/BaseServer.java:128-131 | The element texts, in order. |
| ServerData.ReadTagTexts | common/src/main/java/au/com/grieve/myserver/templates/server/BaseServer.java:136-142 | The tags loop builds exactly the specified map. |
| ServerData.PermissionsContents | common/src/main/java/au/com/grieve/myserver/templates/server/BaseServer.java:125-133 | Each permissions key maps to its element texts, in order. |
| ServerData.TagTextsContents | common/src/main/java/au/com/grieve/myserver/templates/server/BaseServer.java:137-141 | Each tags key maps to its text. |
| ServerData.SaveLoadRoundTrip | common/src/main/java/au/com/grieve/myserver/templates/server/BaseServer.java:88-143 | saveData then loadData restores name, uuid, every permission list in order, and every tag. |
| ServerData.NullNameComesBackAsText | common/src/main/java/au/com/grieve/myserver/templates/server/BaseServer.java:88-115 | A null name is saved as null and comes back as the text "null". |
| ServerData.CollectAllTags | common/src/main/java/au/com/grieve/myserver/templates/server/BaseServer.java:166-175 | The two loops of getAllTags build exactly the specified map. |
| ServerData.PutDefaults | common/src/main/java/au/com/grieve/myserver/templates/server/BaseServer.java:168-170 | Every declared tag under its default. |
| ServerData.PutOverrides | common/src/main/java/au/com/grieve/myserver/templates/server/BaseServer.java:171-173 | Every override put over what is there. |
| ServerData.AllTagsContents | common/src/main/java/au/com/grieve/myserver/templates/server/BaseServer.java:166-175 | Keys are declared plus override names; overrides win over defaults. |
| ServerData.TagValueAgreesWithAllTags | common/src/main/java/au/com/grieve/myserver/templates/server/BaseServer.java:145-158 | getTag(name) is the override or null; with a non-null default it agrees with getAllTags on listed names (the declared default even if null) and gives the default otherwise. |
| ServerData.AddressBindingsContents | common/src/main/java/au/com/grieve/myserver/templates/server/vanilla/VanillaServer.java:40-45 | MC_SERVER_IP/PORT are the address or "invalid", overriding any tag of that name; every other binding kept. |
| BaseServers.BaseServer.constructor | common/src/main/java/au/com/grieve/myserver/templates/server/BaseServer.java:60-72 | The builder: given template, name and uuid, no permissions, no overrides. |
| BaseServers.BaseServer.SaveData | common/src/main/java/au/com/grieve/myserver/templates/server/BaseServer.java:88-109 | saveData writes the specified document, or throws on a null uuid. |
| BaseServers.BaseServer.Save | common/src/main/java/au/com/grieve/myserver/templates/server/BaseServer.java:80-86 | server.yml is replaced by what saveData writes; nothing is written if it throws. |
| BaseServers.BaseServer.LoadData | common/src/main/java/au/com/grieve/myserver/templates/server/BaseServer.java:111-143 | name is required and set first, then uuid; permissions and tags are replaced wholesale. |
| BaseServers.BaseServer.Load | common/src/main/java/au/com/grieve/myserver/templates/server/BaseServer.java:74-78 | A missing server.yml is an IOException; otherwise loadData's effect. |
| BaseServers.BaseServer.GetAllTags | common/src/main/java/au/com/grieve/myserver/templates/server/BaseServer.java:166-175 | getAllTags returns the declared defaults overridden by the overrides. |
| BaseServers.BaseServer.SetTag | common/src/main/java/au/com/grieve/myserver/templates/server/BaseServer.java:177-179 | setTag only updates the override map. |
| BaseServers.BaseServer.CreateTemplater | common/src/main/java/au/com/grieve/myserver/templates/server/BaseServer.java:197-203 | Every tag, then DATE_GENERATED. |
| BaseServers.BaseServer.UpdateFilesWith | common/src/main/java/au/com/grieve/myserver/templates/server/BaseServer.java:184-195 | Renders the listed files of the class with the given templater. |
| BaseServers.BaseServer.UpdateFiles | common/src/main/java/au/com/grieve/myserver/templates/server/BaseServer.java:184-195 | Renders the listed files with the base templater. |
| BaseServers.SaveThenLoad | common/src/main/java/au/com/grieve/myserver/templates/server/BaseServer.java:80-143 | A saved server reloaded into another instance of the template has the same name, uuid, permissions and tags. |
| TemplatesVanilla.VanillaServer.constructor | common/src/main/java/au/com/grieve/myserver/templates/server/vanilla/VanillaServer.java:33-38 | The address starts unset. |
| TemplatesVanilla.VanillaServer.CreateTemplater | common/src/main/java/au/com/grieve/myserver/templates/server/vanilla/VanillaServer.java:40-45 | The base bindings, then MC_SERVER_IP and MC_SERVER_PORT. |
| TemplatesVanilla.VanillaServer.UpdateFiles | common/src/main/java/au/com/grieve/myserver/templates/server/vanilla/VanillaServer.java:40-45 | updateFiles renders with this class's templater. |
| TemplatesVanilla.ServerNameExamples | common/src/main/java/au/com/grieve/myserver/templates/server/vanilla/VanillaServerTemplate.java:81-83 | Letters, digits, '-' and '.' are accepted; empty, space and '_' are not. |
| TemplatesVanilla.AllNameChars | common/src/main/java/au/com/grieve/myserver/templates/server/vanilla/VanillaServerTemplate.java:81 | The match holds iff every character is in [0-9a-zA-Z-.]. |
| TemplatesVanilla.VanillaServerTemplate.constructor | common/src/main/java/au/com/grieve/myserver/templates/server/vanilla/VanillaServerTemplate.java:59-76 | The "server" section, each field first-wins over the walk. |
| TemplatesVanilla.VanillaServerTemplate.CreateServer | common/src/main/java/au/com/grieve/myserver/templates/server/vanilla/VanillaServerTemplate.java:78-113 | Rejects a bad name, then a known name, then an existing directory; otherwise the directory is created, and a template without a "files" directory then fails with an IOException, leaving the directory and saving nothing; otherwise the server with name and fresh uuid is saved, then STATIC files rendered, succeeding iff the template has files and every listed file renders. |
| TemplatesVanilla.VanillaServerTemplate.LoadServer | common/src/main/java/au/com/grieve/myserver/templates/server/vanilla/VanillaServerTemplate.java:115-122 | A missing server.yml is IOException; otherwise the load succeeds iff name and uuid are present. |
| FileStore.FileSystem.constructor | common/src/main/java/au/com/grieve/myserver/templates/server/vanilla/VanillaTemplate.java:134-141 | The paths Files.exists finds are exactly those given. |
| FileStore.FileSystem.Create | common/src/main/java/au/com/grieve/myserver/templates/server/vanilla/VanillaServerTemplate.java:97 | createDirectories: the path exists afterwards, nothing else changes. |
| FileStore.FetchPresent | common/src/main/java/au/com/grieve/myserver/templates/server/vanilla/VanillaTemplate.java:133-137 | A cached file is never fetched again. |
| FileStore.FetchChangedIffMissing | common/src/main/java/au/com/grieve/myserver/templates/server/vanilla/VanillaTemplate.java:133-137 | A fetch reports a change iff the file was missing; on success the file exists. |
| VanillaTemplates.ManifestUrlIsLastMatch | common/src/main/java/au/com/grieve/myserver/templates/server/vanilla/VanillaTemplate.java:159-167 | None iff no id matches ignoring case; otherwise the last match's url. |
| VanillaTemplates.SelectServerManifest | common/src/main/java/au/com/grieve/myserver/templates/server/vanilla/VanillaTemplate.java:158-163 | The manifest loop selects exactly the specified url. |
| VanillaTemplates.UpdateChangedIffMissing | common/src/main/java/au/com/grieve/myserver/templates/server/vanilla/VanillaTemplate.java:124-146 | A change is reported iff the original or the patched jar was missing; afterwards both exist. |
| VanillaTemplates.UpdateIdempotent | common/src/main/java/au/com/grieve/myserver/templates/server/vanilla/VanillaTemplate.java:133-145 | After a successful update a second one reports no change and does nothing. |
| VanillaTemplates.VanillaTemplate.constructor | common/src/main/java/au/com/grieve/myserver/templates/server/vanilla/VanillaTemplate.java:55-57 | The version and no pending update. |
| VanillaTemplates.VanillaTemplate.Load | common/src/main/java/au/com/grieve/myserver/templates/server/vanilla/VanillaTemplate.java:64-81 | The version is the first vanilla.version; missing is InvalidTemplateException. |
| VanillaTemplates.VanillaTemplate.DownloadServer | common/src/main/java/au/com/grieve/myserver/templates/server/vanilla/VanillaTemplate.java:153-173 | No matching manifest entry is an IOException; otherwise the fetch's effect. |
| VanillaTemplates.VanillaTemplate.UpdateServer | common/src/main/java/au/com/grieve/myserver/templates/server/vanilla/VanillaTemplate.java:124-146 | updateServer has exactly the specified effect and result. |
| VanillaTemplates.VanillaTemplate.PrepareServer | common/src/main/java/au/com/grieve/myserver/templates/server/vanilla/VanillaTemplate.java:88-116 | An update runs only with none pending, an IOException counting as no change; the jar is copied only on a reported change; the handle is always cleared. |
| PaperTemplates.SettingsOf | common/src/main/java/au/com/grieve/myserver/templates/server/paper/PaperTemplate.java:64-87 | version and url each first-wins; a missing version is reported before a missing url, both as InvalidTemplateException. |
| PaperTemplates.UpdateChangedIffMissing | common/src/main/java/au/com/grieve/myserver/templates/server/paper/PaperTemplate.java:130-146 | A change is reported iff paper-<version>.jar was missing, and the jar exists after a success; once it exists a call only ensures the cache directory. |
| PaperTemplates.PrepareAlwaysCopies | common/src/main/java/au/com/grieve/myserver/templates/server/paper/PaperTemplate.java:110-116 | prepare succeeds iff the jar was cached or is built now, and then the jar is copied into the instance whether or not it changed. |
| PaperTemplates.PaperTemplate.constructor | common/src/main/java/au/com/grieve/myserver/templates/server/paper/PaperTemplate.java:61-88 | The version and url, no pending update. |
| PaperTemplates.PaperTemplate.Load | common/src/main/java/au/com/grieve/myserver/templates/server/paper/PaperTemplate.java:61-88 | The constructor loop and its two checks. |
| PaperTemplates.PaperTemplate.UpdateServer | common/src/main/java/au/com/grieve/myserver/templates/server/paper/PaperTemplate.java:130-146 | updateServer has exactly the specified effect and result. |
| PaperTemplates.PaperTemplate.PrepareServer | common/src/main/java/au/com/grieve/myserver/templates/server/paper/PaperTemplate.java:96-121 | The specified prepare; the pending handle is cleared. |
| SpigotTemplates.VersionOf | common/src/main/java/au/com/grieve/myserver/templates/server/spigot/SpigotTemplate.java:63-76 | The version is first-wins; missing is InvalidTemplateException. |
| SpigotTemplates.UpdateChangedIffMissing | common/src/main/java/au/com/grieve/myserver/templates/server/spigot/SpigotTemplate.java:119-135 | A change is reported iff spigot-<version>.jar was missing, and the jar exists after a success; once it exists a call only ensures the cache directory. |
| SpigotTemplates.PrepareAlwaysCopies | common/src/main/java/au/com/grieve/myserver/templates/server/spigot/SpigotTemplate.java:99-105 | prepare succeeds iff the jar was cached or is built now, and then the jar is copied into the instance whether or not it changed. |
| SpigotTemplates.SpigotTemplate.constructor | common/src/main/java/au/com/grieve/myserver/templates/server/spigot/SpigotTemplate.java:60-77 | The version, no pending update. |
| SpigotTemplates.SpigotTemplate.Load | common/src/main/java/au/com/grieve/myserver/templates/server/spigot/SpigotTemplate.java:60-77 | The constructor loop and its check. |
| SpigotTemplates.SpigotTemplate.UpdateServer | common/src/main/java/au/com/grieve/myserver/templates/server/spigot/SpigotTemplate.java:119-135 | updateServer has exactly the specified effect and result. |
| SpigotTemplates.SpigotTemplate.PrepareServer | common/src/main/java/au/com/grieve/myserver/templates/server/spigot/SpigotTemplate.java:85-110 | The specified prepare; the pending handle is cleared. |
| Servers.StartGate | common/src/main/java/au/com/grieve/myserver/templates/server/Server.java:261-275 | start proceeds only from STOPPED or ERROR, which is reset to STOPPED; otherwise InvalidServerException. |
| Servers.StopGate | common/src/main/java/au/com/grieve/myserver/templates/server/Server.java:290-299 | stop proceeds only from STARTED. |
| Servers.CheckRequiredTags | common/src/main/java/au/com/grieve/myserver/templates/server/Server.java:320-325 | Names an offending required tag iff there is one. |
| Servers.LaunchOrder | common/src/main/java/au/com/grieve/myserver/templates/server/Server.java:317-340 | A missing required tag fails before anything else; otherwise success iff files render, preparation and spawn succeed. |
| Servers.Registry.constructor | common/src/main/java/au/com/grieve/myserver/ServerManager.java:57-59 | The instance map starts empty. |
| Servers.Server.constructor | common/src/main/java/au/com/grieve/myserver/templates/server/Server.java:93-97 | Status UNKNOWN, no process, no address. |
| Servers.Server.NewTemplater | common/src/main/java/au/com/grieve/myserver/templates/server/Server.java:249-257 | Every tag, DATE_GENERATED, then the address bindings. |
| Servers.Server.UpdateFiles | common/src/main/java/au/com/grieve/myserver/templates/server/Server.java:236-247 | Renders the class's files with newTemplater. |
| Servers.Server.SetTag | common/src/main/java/au/com/grieve/myserver/templates/server/Server.java:205-214 | The override is stored, then saved, then DYNAMIC files re-rendered; a failed save stops before the files. |
| Servers.Server.ResetTag | common/src/main/java/au/com/grieve/myserver/templates/server/Server.java:221-231 | Only when an override was removed is the record saved and re-rendered. |
| Servers.Server.GetTag | common/src/main/java/au/com/grieve/myserver/templates/server/Server.java:170-186 | Delegates to the record: the override, else the default given. |
| Servers.Server.BeginStart | common/src/main/java/au/com/grieve/myserver/templates/server/Server.java:261-275 | Refused with status unchanged, or reset to STOPPED. |
| Servers.Server.StartServer | common/src/main/java/au/com/grieve/myserver/templates/server/Server.java:317-377 | INIT, required-tag check before any file is touched, DYNAMIC files, preparation, STARTING, then spawn with input and output attached. |
| Servers.Server.FinishStart | common/src/main/java/au/com/grieve/myserver/templates/server/Server.java:276-285 | A failed startServer leaves ERROR and is rethrown; otherwise the uuid is registered (a null uuid throws, with the same effect). |
| Servers.Server.Start | common/src/main/java/au/com/grieve/myserver/templates/server/Server.java:259-286 | Refused with nothing changed unless STOPPED/ERROR; success leaves STARTING, a process and the uuid registered; failure leaves ERROR, unregistered. |
| Servers.Server.SendCommand | common/src/main/java/au/com/grieve/myserver/templates/server/Server.java:427-435 | Refused without an input stream; otherwise the line is sent. |
| Servers.Server.StopServer | common/src/main/java/au/com/grieve/myserver/templates/server/Server.java:398-412 | Status STOPPING, then each stop command in order; with no input stream the first command fails. |
| Servers.Server.Stop | common/src/main/java/au/com/grieve/myserver/templates/server/Server.java:288-305 | Refused with nothing changed unless STARTED; otherwise STOPPING and the stop commands sent; the uuid is removed from the instance map only when sending succeeds. |
| Servers.Server.OnServerStart | common/src/main/java/au/com/grieve/myserver/templates/server/Server.java:387-389 | Status STARTED. |
| Servers.Server.OnServerStop | common/src/main/java/au/com/grieve/myserver/templates/server/Server.java:423-425 | Status STOPPED. |
| Servers.Server.Ping | common/src/main/java/au/com/grieve/myserver/templates/server/Server.java:365-376 | STARTED only when a process is attached and the ping succeeds; otherwise unchanged. |
| Servers.Server.DetachProcess | common/src/main/java/au/com/grieve/myserver/templates/server/Server.java:352-357 | Process handles cleared. |
| Servers.Server.OutputClosed | common/src/main/java/au/com/grieve/myserver/templates/server/Server.java:347-361 | Handles cleared, then STOPPED. |
| Servers.StartPingStop | common/src/main/java/au/com/grieve/myserver/templates/server/Server.java:259-305 | Start, ping up, stop goes STOPPED, STARTING, STARTED, STOPPING and leaves the instance map as it was for the uuid. |
| ServerManagers.LoadKeepsKeyed | common/src/main/java/au/com/grieve/myserver/ServerManager.java:119-145 | A load keeps the cache keyed and only adds the loaded server under the document's uuid; a failure changes nothing. |
| ServerManagers.LoadIsCached | common/src/main/java/au/com/grieve/myserver/ServerManager.java:129-132 | Once loaded, a uuid returns the same server, before the template is looked at. |
| ServerManagers.ListedFromTaken | common/src/main/java/au/com/grieve/myserver/ServerManager.java:89-106 | When nothing escapes, every listed server comes from a taken, readable candidate; caught failures are skipped. |
| ServerManagers.EscapePersists | common/src/main/java/au/com/grieve/myserver/ServerManager.java:96-104 | An exception the loop does not catch ends it: later candidates change neither the outcome nor the cache. |
| ServerManagers.EscapeIsUncaught | common/src/main/java/au/com/grieve/myserver/ServerManager.java:102 | What escapes is never IOException, NoSuchTemplate, NoSuchServer, InvalidServer or InvalidTemplate. |
| ServerManagers.ListedNext | common/src/main/java/au/com/grieve/myserver/ServerManager.java:96-104 | One more candidate: a taken, read one is loaded, listed on success, skipped on a caught failure, and escapes otherwise. |
| ServerManagers.ListedStopped | common/src/main/java/au/com/grieve/myserver/ServerManager.java:96-104 | After an escape one more candidate changes nothing. |
| ServerManagers.UncaughtFailureEscapes | common/src/main/java/au/com/grieve/myserver/ServerManager.java:100-104 | A wrapped template failure escapes getServers, while InvalidTemplateException is caught and the server left out. |
| ServerManagers.FirstMatch | common/src/main/java/au/com/grieve/myserver/ServerManager.java:63-75 | The first server in listing order with the key, or NoSuchServerException iff none. |
| ServerManagers.ServerManager.constructor | common/src/main/java/au/com/grieve/myserver/ServerManager.java:57-59 | The cache starts empty. |
| ServerManagers.ServerManager.LoadServer | common/src/main/java/au/com/grieve/myserver/ServerManager.java:119-145 | loadServer has exactly the specified result and cache effect. |
| ServerManagers.ServerManager.GetServers | common/src/main/java/au/com/grieve/myserver/ServerManager.java:82-112 | Empty when the root is missing; otherwise the listing of the pruned walk, or the first uncaught exception of a load. |
| ServerManagers.ServerManager.GetServer | common/src/main/java/au/com/grieve/myserver/ServerManager.java:63-75 | The first listed server with that name or uuid, NoSuchServerException when none, or the exception getServers lets escape. |
| Bungee.FirstFree | platform/bungeecord/src/main/java/au/com/grieve/myserver/platform/bungeecord/BungeeServerManager.java:60-69 | The lowest unreserved port of [start, start+amount), or PortNotFound iff all are reserved or the range is empty. |
| Bungee.UnreservedRangeGivesFirst | platform/bungeecord/src/main/java/au/com/grieve/myserver/platform/bungeecord/BungeeServerManager.java:43-69 | Nothing is recorded, so every reservation hands out the first port of the range. |
| Bungee.BungeeServerManager.constructor | platform/bungeecord/src/main/java/au/com/grieve/myserver/platform/bungeecord/BungeeServerManager.java:43-48 | The reserved list starts empty. |
| Bungee.BungeeServerManager.ReservePort | platform/bungeecord/src/main/java/au/com/grieve/myserver/platform/bungeecord/BungeeServerManager.java:60-69 | The loop returns FirstFree and records nothing. |
| Bungee.BungeeServerManager.ReleasePort | platform/bungeecord/src/main/java/au/com/grieve/myserver/platform/bungeecord/BungeeServerManager.java:71-73 | List.remove(int) removes by index; out of range it throws. |
| Bungee.BungeeServerManager.Register | platform/bungeecord/src/main/java/au/com/grieve/myserver/platform/bungeecord/BungeeServerManager.java:75-92 | No free port fails before anything changes; otherwise port and 127.0.0.1 are set and the proxy entry added; if adding it fails, releasePort removes by index and its out-of-range error replaces the original. |
| Bungee.BungeeServerManager.Unregister | platform/bungeecord/src/main/java/au/com/grieve/myserver/platform/bungeecord/BungeeServerManager.java:94-98 | The proxy entry goes; port and IP are cleared. |
| Bungee.BungeeServerManager.ServerPing | platform/bungeecord/src/main/java/au/com/grieve/myserver/platform/bungeecord/BungeeServerManager.java:100-110 | False for an unregistered name; otherwise the ping's answer. |
| Bungee.BungeePaperServer.constructor | platform/bungeecord/src/main/java/au/com/grieve/myserver/platform/bungeecord/templates/server/paper/BungeePaperServer.java:49-51 | The server and its manager. |
| Bungee.BungeePaperServer.StartServer | platform/bungeecord/src/main/java/au/com/grieve/myserver/platform/bungeecord/templates/server/paper/BungeePaperServer.java:84-104 | A name already in the proxy is refused first; no free port becomes InvalidServerException; a failed base start is unregistered and rethrown. |
| Bungee.BungeePaperServer.Start | platform/bungeecord/src/main/java/au/com/grieve/myserver/platform/bungeecord/templates/server/paper/BungeePaperServer.java:84-104 | start with this startServer: success leaves STARTING in the proxy and the instance map; failure leaves ERROR out of the proxy. |
| Bungee.BungeePaperServer.Ping | platform/bungeecord/src/main/java/au/com/grieve/myserver/platform/bungeecord/templates/server/paper/BungeePaperServer.java:106-113 | STARTED only if a process is attached, the name is registered and the ping answers. |
| Bungee.BungeePaperServer.OutputClosed | platform/bungeecord/src/main/java/au/com/grieve/myserver/platform/bungeecord/templates/server/paper/BungeePaperServer.java:115-121 | STOPPED, then unregistered from the proxy. |

## Left out

- Process I/O, the scheduler, the output pump's `handleOutput`, the 2-second ping rescheduling and the kill timer: ping answers and the end of the output stream are inputs (`Server.Ping`, `Server.OutputClosed`).
- Concurrency: the futures of `prepareServer` are modelled as running to completion in sequence, and the template lock list as single-threaded.
- The clock: `DATE_GENERATED` is the `now` parameter.
- UUID, URL and `Version` parsing: uuids, urls and versions are kept as text, and a fresh uuid is a parameter.
- Unicode: case folding and digits are ASCII only; Java's `toUpperCase`/`toLowerCase` and `Integer.valueOf` also accept other scripts' letters and digits.
- Json: binary, POJO and floating-point nodes are not modelled; numbers are integers.
- Json.AsInt: text that is not a sign and digits but that `Double.parseDouble` accepts ("1.5", "1e3", "7d") gives Jackson the truncated double and the model 0, because floating point is not modelled.
- Json.Lookup: an object with a key twice answers its first entry, where Jackson's parser keeps the last; parsed documents are assumed well formed with unique keys (`Json.UniqueKeys`).
- TemplateManagers.TemplateManager.LoadTemplate: for a cycle below the first parent the contract promises a failure but not which error; the constructor that meets the locked name throws it and the callers above wrap it.
- TemplateManagers.TemplateManager.Construct: constructors are assumed to load each parent through `loadTemplate(Class, ITemplateDefinition)`, which caches and checks the lock list. The only such constructor in the source, templates/Template.java:55, uses the String overload (TemplateManager.java:91-97), which skips both. There, a template naming itself as a parent fails with a NullPointerException from the local loader's null answer, not the parent-loop error. The `ParentLoop` and `OnCycle` clauses of LoadTemplate and BuildLocked hold only under this assumption.
- TemplateManagers.TemplateManager.Cache: `templateInstances` has weak values (TemplateManager.java:64-66), so an entry nobody else holds can be collected and rebuilt by the next load. The model's cache never drops an entry, so "no cached entry lost" holds only in the model.
- HashMap and directory-walk order: the iteration order of a map and the pre-order list of walked directories are parameters. `Files.walk` depth limits and symbolic links are not modelled.
- The line separator is the fixed text "\n".
- `hasServer` in `createServer` is the `known` parameter, and `getTemplate` is a resolve function or a `templates` map parameter.
- A null value passed to `setTag` is not modelled; tag overrides are non-null text.
- `downloadServer`'s HTTP requests, the patch and the build tools are reduced to booleans saying whether they produced their file.
- `bungeeGetInfo`, chat formatting and `destroy()` have no state the core depends on.
- Bungee.FirstFree: `startPort + amount` is unbounded; Java's int overflow for a range reaching past 2147483647 is not modelled.
- Bungee.BungeePaperServer.Start: with a null uuid the proxy entry made by `startServer` stays, as in the source, and the contract says nothing about it.
- Servers.Registry stands for `ServerManager.serverInstances`; weak map values are ordinary map entries that are never collected.
- The command line of `startServer` is split on spaces by the source; the model keeps the rendered command as one text.
- TemplateManagers: `getTemplate` and `getTemplates` call `getTemplatePaths` and `loadTemplate(Path)`, which are not part of this model.
- LocalTemplateDefinitions: `loadTemplate` only delegates to the template manager and is not modelled separately.
- LocalTemplateLoaders.LoadTemplate always returns null; it is modelled by its body and has no contract.
- LocalTemplateLoaders.FindTemplatesByName returns the name index map, as the code builds it, although the interface declares a list.
- `templates/Template.java` is not part of this model: its merge relies on `JsonUtils.merge`, which is not part of this model either.
- `templates/TagsTemplate.java` lines 49-99 and 137-160 do not form complete declarations; only the two initializer blocks at 101-136 and the fields they fill are modelled.
- `ServerStatus`, `TypeEnum`, `TemplateFileEnum` and `PaperServer` are enumerations and a subclass without logic; they appear as datatypes or not at all.
