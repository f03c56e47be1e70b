# PHP class generator — Dafny model

The generator reads class definitions and writes one PHP class file per
definition. A definition is a mapping with these keys:

- `fqn`: the backslash-separated, fully qualified class name;
- `props`: the properties;
- `construct`: an optional constructor property;
- `class-patterns`: an optional list of pattern names (`immutable`, `builder`);
- `class-metadata`: the companion class names (`builderClass`, `builtClass`).

For each definition, a `GeneratePHPClass` object does the following:

1. It validates the definition.
2. It splits the `fqn` into class name, namespace and output directory.
3. It reads the patterns into four fields.
4. It puts `construct` in front of `props`.
5. It appends the class text to its `_class` buffer, section by section:
   - the header;
   - one field per property;
   - a constructor, which is either builder-consuming with a `createBuilder` method, or plain;
   - an accessor per property and, unless immutable, a setter per property (fluent for a builder);
   - `build()` for a builder;
   - the closing brace.

The model keeps that shape. `Generator.GeneratePHPClass` is the object:

- Its fields are the PHP fields.
- Its methods update them with the source's loops and append the same text in the same order.
- Each method is proved against a reference definition:
  - `ClassSpec.Extract` for extraction;
  - `ClassText.Render` for the text, which is a list of lines, each followed by PHP_EOL.
- Lemmas about those definitions state what the output contains:
  - `ClassFacts` classifies every generated line by kind (field, constructor, `createBuilder`, accessor, setter, `return $this;`, `build()`);
  - it proves the exact list of lines of each kind in the whole text.

The templates follow the source character for character. One example: a `construct` property with an `fqn` gets its type hint and then one more space in the `createBuilder` parameter, which gives two spaces before `$`.

Modules:

| file | module | contents |
|---|---|---|
| wrappers.dfy | `Wrappers` | `Option`, `Result`, `Outcome` |
| text.dfy | `Text` | `ucfirst`, `explode`, `implode`, `rtrim`, append-with-separator loops, and the lemmas relating them |
| config.dfy | `GenerateConfig` | the `GenerateConfig` constants, PHP_EOL, DIRECTORY_SEPARATOR |
| classspec.dfy | `ClassSpec` | the definition datatypes, fqn splitting, pattern reading, extraction |
| classtext.dfy | `ClassText` | the line templates and the sections of the generated class |
| classfacts.dfy | `ClassFacts` | the line classifier and the facts about the generated text |
| generator.dfy | `Generator` | the `GeneratePHPClass` object and the batch loop |

## Model

| member | source | states |
|---|---|---|
| Text.Explode | generateClass.php:218 | `explode` always gives at least one piece, and no piece holds the delimiter |
| Text.JoinExplode | generateClass.php:218 | `implode` undoes `explode`: joining the pieces of the fqn with `\` gives the fqn back |
| Text.ExplodeJoin | generateClass.php:218 | `explode` undoes `implode` when no piece contains the delimiter |
| Text.ConcatEachIsJoin | generateClass.php:221-226 | appending each segment followed by `\` builds the `implode` of the segments plus one trailing `\` |
| Text.ConcatEachAppend | generateClass.php:221-226 | appending each part followed by a separator distributes over concatenation of the part lists |
| Text.RTrim | generateClass.php:227 | `rtrim` with one character gives a prefix of its input that does not end with that character, and everything it dropped is that character |
| Text.UpperAscii | generateClass.php:115 | a lower-case ASCII letter becomes its capital (code point minus 32); every other character is unchanged |
| Text.Ucfirst | generateClass.php:115 | `ucfirst` keeps the length and the rest of the string; a lower-case ASCII first letter becomes its capital, any other first character stays |
| Text.ReplaceJoin | generateClass.php:224 | changing the delimiter of an `implode` gives the `implode` with the other delimiter |
| ClassSpec.SplitFqn | generateClass.php:217-227 | reference definition of the split: the last `\`-segment is the class name, the earlier ones each followed by `\` and then `rtrim`med give the namespace, and each followed by `/` give the path |
| ClassSpec.SplitFqnSingleSegment | generateClass.php:217-227 | an fqn without `\` is its own class name, with empty namespace and empty path |
| ClassSpec.SplitFqnReassembles | generateClass.php:217-227 | for a well-formed fqn, namespace + `\` + class name is the fqn, the class name has no `\`, and the path is the namespace with `/` for `\` plus a trailing `/` |
| ClassSpec.TargetFileMirrorsFqn | generateClass.php:206 | for every fqn, empty segments included, the file written is the fqn with every `\` replaced by `/`, plus `.php` |
| ClassSpec.ExtractTargetFile | generateClass.php:206 | for every definition extraction accepts, the target file of the extracted class is its fqn with `/` for `\`, plus `.php` |
| ClassSpec.ApplyPattern | generateClass.php:237-254 | reference definition of one `switch` case: `immutable` and `builder` set their flag and name or throw without their metadata; any other name leaves the fields as they are |
| ClassSpec.ReadPatterns | generateClass.php:232-256 | reference definition of the loop: the names applied in list order from the unset fields, the first throw ending it |
| ClassSpec.ReadPatternsFails | generateClass.php:236-255 | reading the patterns throws exactly when some listed `immutable` lacks `builderClass` or some listed `builder` lacks `builtClass` |
| ClassSpec.ReadPatternsFirstError | generateClass.php:236-255 | the error thrown is the one of the first such pattern in list order |
| ClassSpec.ReadPatternsFailureFinal | generateClass.php:236-255 | once a pattern has thrown, the names after it no longer matter |
| ClassSpec.ReadPatternsSucceeds | generateClass.php:236-255 | on success, `immutable` is set iff listed, with the metadata's `builderClass`; `builder` is set iff listed, with `builtClass`; both may be set together; the names stay empty otherwise |
| ClassSpec.RecognisedOnly | generateClass.php:252-253 | the filtered list holds only `immutable` and `builder`, and each of them as many times as the input list does |
| ClassSpec.UnrecognisedPatternsIgnored | generateClass.php:252-253 | unrecognised pattern names change nothing: reading the full list equals reading only the recognised names |
| ClassSpec.NormalizedProps | generateClass.php:56-61 | reference definition of the merge: `construct` (when set) in front of `props` (empty when unset) |
| ClassSpec.Extract | generateClass.php:46-62 | reference definition of the constructor: the two validation throws, then the fqn split, the pattern reading (its throw passed on) and the merged properties |
| ClassSpec.ExtractOutcome | generateClass.php:46-62 | the constructor throws exactly on a non-mapping or empty config, a missing or empty `fqn`, or an unsatisfied pattern. On success the property list is `construct` (when set) followed by `props` (empty when unset), each flag matches its listing, and the class name is the last fqn segment |
| ClassText.HeaderLines | generateClass.php:75-79 | reference definition of the header: `<?php`, the namespace line, a blank line, the class line |
| ClassText.PropertiesLines | generateClass.php:81-88 | reference definition of the fields: one `private $_<name>;` line per property, then a blank line |
| ClassText.ConstructorLines | generateClass.php:90-140 | reference definition of the constructor section: nothing without `construct` or `immutable`; the builder-consuming constructor with one assignment per property followed by `createBuilder` when immutable; the plain constructor otherwise |
| ClassText.AllMethodLines | generateClass.php:142-199 | reference definition of the methods: per property an accessor and, unless immutable, a setter (with `return $this;` for a builder), then `build()` for a builder |
| ClassText.Render | generateClass.php:64-69 | reference definition of the text: the header, properties, constructor, methods and closing `}` lines (`CLOSING_LINES`, lines 201-203), each followed by PHP_EOL |
| ClassFacts.FieldDeclarations | generateClass.php:81-88 | the field lines of the whole text are exactly one `private $_<name>;` per normalized property, in order |
| ClassFacts.ConstructorDeclarations | generateClass.php:90-140 | there is one constructor iff `construct` is set or the class is immutable. It takes `\<builderClass> $builder` when immutable, and otherwise the `construct` property with its hint and `= null` |
| ClassFacts.CreateBuilderDeclarations | generateClass.php:120-130 | `createBuilder` appears, once, iff the class is immutable, with the `construct` parameter when set |
| ClassFacts.AccessorDeclarations | generateClass.php:154-170 | the accessor lines are exactly one per normalized property, in order |
| ClassFacts.AccessorIsPrefix | generateClass.php:145-170 | an accessor is named `is…` iff the property's `type` is `boolean` |
| ClassFacts.SetterDeclarations | generateClass.php:172-186 | an immutable class has no setter; otherwise the setter lines are one `set<Name>(<hint>$<name>)` per normalized property, in order |
| ClassFacts.FluentSetters | generateClass.php:179-181 | the text has one `return $this;` per property iff the class is a builder and not immutable, and none otherwise |
| ClassFacts.FluentSetterPositions | generateClass.php:174-185 | every setter header has a line two further down, the line after its assignment, and that line is `return $this;` iff the class is a builder |
| ClassFacts.BuildDeclarations | generateClass.php:189-197 | `build()` appears, once, iff the class is a builder |
| ClassFacts.MemberCounts | generateClass.php:81-199 | without patterns, N normalized properties give N fields, N accessors, N setters, no `build()`, and one constructor iff `construct` is set |
| ClassFacts.RenderSections | generateClass.php:64-69 | the class text is the header, properties, constructor, methods and closing texts, in that order |
| ClassFacts.RenderFrame | generateClass.php:75-79 | the text opens with `<?php`, `namespace <ns>;`, a blank line and `class <Name> {`, and ends with `}` and a blank line |
| ClassFacts.RenderedLines | generateClass.php:64-69 | when no line contains a line break, splitting the text at PHP_EOL gives back the class's lines |
| Generator.GeneratePHPClass.Init | generateClass.php:34-44 | the new object holds the definition, an empty buffer, empty names and unset flags (PHP's `null` defaults, which append and test as `""` and `false`) |
| Generator.GeneratePHPClass.Create | generateClass.php:46-62 | the constructor fails exactly when extraction does, with the same error; otherwise the new object's fields are the extracted class and its buffer is empty |
| Generator.GeneratePHPClass.MergeProps | generateClass.php:56-61 | `props` becomes `construct` (when set) followed by the former `props` (empty when unset); nothing else changes |
| Generator.GeneratePHPClass.ExtractClassDetails | generateClass.php:217-230 | after the loop and `rtrim`, class name, namespace and path are the fqn split; then the pattern fields are read as `_readClassPatterns` states |
| Generator.GeneratePHPClass.ReadClassPatterns | generateClass.php:232-256 | the loop fails iff the pattern reading fails, with its error; otherwise the four pattern fields are the patterns read |
| Generator.GeneratePHPClass.Emit | generateClass.php:76-78 | appending lines each followed by PHP_EOL extends the buffer by exactly their text |
| Generator.GeneratePHPClass.BeginClass | generateClass.php:75-79 | the buffer is extended by exactly the header text; the other fields are unchanged |
| Generator.GeneratePHPClass.AddProperties | generateClass.php:81-88 | the buffer is extended by one field line per normalized property and a blank line |
| Generator.GeneratePHPClass.AddConstructor | generateClass.php:90-140 | the buffer is extended by exactly the constructor section: nothing, the builder-consuming constructor (one assignment per property) with `createBuilder`, or the plain constructor |
| Generator.GeneratePHPClass.AddPropertyMethods | generateClass.php:144-186 | for one property, the buffer is extended by its accessor and, unless immutable, its setter, fluent for a builder |
| Generator.GeneratePHPClass.AddMethods | generateClass.php:142-199 | the buffer is extended by every property's methods, in order, then `build()` for a builder |
| Generator.GeneratePHPClass.CloseClass | generateClass.php:201-203 | the buffer is extended by `}` and a blank line |
| Generator.GeneratePHPClass.Generate | generateClass.php:64-69 | the buffer is extended by exactly the rendered class |
| Generator.GeneratePHPClass.SaveClass | generateClass.php:205-215 | the file written is `<path><className>.php` with the buffer as contents |
| Generator.GenerateClass | generateClass.php:285-286 | one definition gives its extraction error, or the file at the target path holding the rendered class |
| Generator.GenerateAll | generateClass.php:284-287 | the batch writes the files of the definitions in order and stops at the first definition the constructor rejects, with that definition's error |

## Left out

- Command-line handling is not modelled: `getopt`, `printUsage` and the exit codes (generateClass.php:259-272, 289-300) are process plumbing.
- YAML parsing is not modelled; it is a foreign library. The batch takes the already parsed definitions. The model also does not cover what the script does after a parse error.
- `echo` of the generated text (generateClass.php:71) is output only and is not modelled.
- `_saveClass` is modelled only as the file it produces. `file_exists`, `mkdir` and `file_put_contents` are file-system I/O. The `overwrite` flag only controls a warning, and the file is written in every case, so the flag does not appear in the model.
- An uncaught exception ends the PHP script. `GenerateAll` models this as an error result after the files of the earlier definitions.
- PHP_EOL is fixed to `"\n"` and DIRECTORY_SEPARATOR to `"/"`.
- PHP `empty()` is modelled as equality with the empty string or list. The string `"0"`, which PHP also treats as empty, is not distinguished.
- `ucfirst` upper-cases ASCII letters only; locales and multi-byte text are not modelled.
- Definition keys other than the five above are not modelled, and a known key whose value is `null` is modelled as absent. So a mapping holding only unknown keys, or only `null` values (such as `{fqn: ~}`), is the empty definition in the model, and it fails with the invalid-config error; PHP sees a non-empty array there and reports the missing `fqn` instead. Both throw.
- Pattern names are typed as strings. PHP's `switch` compares loosely, so a non-string entry (a YAML `true`, say) would match `case "immutable"`; that behaviour is not modelled.
- Property entries are typed as a bare name or a mapping with `prop`, `fqn` and `type`. PHP's handling of other values (for example a mapping without `prop`) is not modelled.
- ClassSpec.SplitFqnReassembles: stated for well-formed fqns only (no empty segment). For other fqns, `rtrim` strips every trailing `\` left by empty segments; `SplitFqn` models that as written, but no lemma describes it.
- ClassFacts.RenderedLines: stated only when no name or hint contains a line break, because such a line would split into several.
- Generator.GeneratePHPClass.AddPropertyMethods: this is the body of the `_addMethods` loop, written as its own method. The appends and their order are the same.
