# gulp-props2json, modelled in Dafny

gulp-props2json is a gulp plugin. It turns Java `.properties` files into
JSON documents or into JavaScript files that assign the properties to a
global namespace object. This project models its transformation engine,
`index.js`, and proves what that engine promises. The engine has these parts:

- the namespace sanitizer `getValidIdentifier` and the per-file namespace
  check (a reserved word is refused; any other namespace is rewritten into a
  valid identifier and kept in the shared options);
- the escaper `getEscapedString`, which puts a backslash before every `\`
  and `"`;
- the nested tree builder `addProperty` / `getNestedObject`, which splits
  each key on `nestingDelimiter` and walks or creates objects. Walking
  through a primitive throws, because the module is in strict mode;
- the JSON renderer `getJsonOutput` / `addNamespaceAndPrettify`. It covers the
  flat or nested object, the namespace wrapper, and the `space` option it
  sets to 2 for good;
- the script renderer:
  - flat mode writes `NS["key"]=value;`;
  - nested mode writes one object guard and one leaf statement per key. Its
    shadow object and cursor persist between keys, and repeated lines are
    suppressed by exact text;
  - `getJsOutput` writes the header and joins the lines, storing the default
    namespace `props`;
- `props2json` (dispatch on `outputType`), `outputFilename`, and the file
  handler that ties them together.

Modules:

| file | module | contents |
|---|---|---|
| wrappers.dfy | Wrappers | `Option`, `Result` |
| options.dfy | Settings | the options object (a class; two renderers write its fields) |
| identifier.dfy | Identifier | `getValidIdentifier` |
| escaping.dfy | Escaping | `getEscapedString` and a reader that undoes it |
| split.dfy | Splitting | `String.prototype.split` with a string separator, and `join` |
| tree.dfy | PropertyTree | `addProperty`, `getNestedObject`, `getParsedJSON` |
| json.dfy | Json | JSON values and `JSON.stringify` (QuoteJSONString, indentation) |
| json_read.dfy | JsonRead | a reader for the JSON text grammar of RFC 8259 |
| json_roundtrip.dfy | JsonRoundTrip | stringify, then read, gives the value back |
| json_output.dfy | JsonOutput | `addNamespaceAndPrettify`, `getJsonOutput` |
| script.dfy | ScriptOutput | the templates, flat and nested script output, `getJsOutput` |
| filename.dfy | FileName | `outputFilename` with node's `path.extname` rule |
| transform.dfy | Transform | `props2json` and the per-file handler |
| witnesses.dfy | NestedWitnesses | consequences of the nested script renderer's design |
| fixtures.dfy | Fixtures | the expected outputs of the repository's test suite |

Each operation that loops or changes state is written as a method with its
loops. Each method is proved equal to a reference function: `Put`,
`BuildTree`, `KeyStep`, `NestedRun`, `JsonText`, `JsText` or `Rendered`. The
lemmas then state what the source promises about those functions. The
partners used are:

- for the escaper and for statements, a reader that undoes them;
- for `JSON.stringify`, a JSON reader;
- for `split`, `join`;
- for the tree builder, path lookup.

`properties-parser`, `JSON.parse` and `is-keyword-js` are function-typed
parameters (`parseProps`, `parse`, `isKeyword`). The namespace option is a
string, and `""` stands for `null`; both are falsy at every place the source
tests it.

## Model

| member | source | states |
|---|---|---|
| Settings.Options.constructor | index.js:213-223 | every option the caller gives replaces its default: json, no namespace, minify, no complex types, flat, space 0, delimiter ".", no appendExt |
| Identifier.ReplaceInvalid | index.js:21 | same length; an identifier character keeps its place, and any other character becomes `_` |
| Identifier.GetValidIdentifier | index.js:20-29 | the result has only `[A-Za-z0-9_$]` and no leading digit; it equals the input exactly when the input already has that form; it is at most one character longer |
| Identifier.GetValidIdentifierIdempotent | index.js:20-29 | sanitizing twice is sanitizing once |
| Identifier.GetValidIdentifierKeeps | index.js:21-24 | each input character appears, after the optional `_` prefix, unchanged or replaced by `_` |
| Identifier.LeadingDigitExample | test/main.js:380-391 | `123` becomes `_123` |
| Identifier.InvalidCharExample | index.js:21 | `a-b` becomes `a_b`; `props` is kept |
| Escaping.Escape | index.js:74-76 | the output is as long as the input plus the number of `\` and `"` in it |
| Escaping.EscapeAppend | index.js:18 | escaping distributes over concatenation (the regex is global and character-wise) |
| Escaping.EscapePlain | index.js:18 | a string with no `\` or `"` is unchanged |
| Escaping.ReadQuotedEscape | index.js:74-76 | the escaped text followed by a closing quote reads back as exactly the input, and reading stops at that quote |
| Escaping.EscapeInjective | index.js:74-76 | different strings escape differently |
| Escaping.EscapeQuotedPlain | index.js:18 | `"s"` escapes to `\"s\"` when `s` has nothing to escape |
| Escaping.EscapeExample | test/main.js:64 | `"key"` escapes to `\"key\"`; a backslash is doubled |
| Splitting.IndexOf | index.js:32 | the first position where the separator occurs, or none when it does not occur |
| Splitting.Split | index.js:32 | an empty separator gives one part per character; any other gives at least one part, none containing the separator |
| Splitting.JoinSplit | index.js:32 | joining the parts with the separator gives the key back |
| Splitting.SplitLeftmost | index.js:32 | each part but the last ends where the separator first occurs in the text that starts with that part |
| Splitting.SplitUnique | index.js:32 | any parts that join back to the key, are cut at leftmost occurrences and end in a part without the separator are the split's parts |
| Splitting.SplitNoSeparator | index.js:32 | a key without the separator is one segment |
| Splitting.SplitPair | index.js:32 | one occurrence of a one-character separator splits a key into its two sides |
| Splitting.SplitExample | index.js:32 | `person.age` splits into `person` and `age` |
| PropertyTree.Lookup | index.js:35 | a value is found exactly when the key is an own property |
| PropertyTree.Assign | index.js:43 | the key now holds the new value, and every other key holds what it held |
| PropertyTree.Slot | index.js:36 | a new name goes after every name it is not listed before and in front of the first one it is (an array index before any other name and any larger index) |
| PropertyTree.AssignKeys | index.js:36 | assigning an existing name keeps the names and their order; a new name is inserted at its Slot |
| PropertyTree.AssignAppends | index.js:36 | a new name that is not an array index goes last |
| PropertyTree.AssignOrdered | index.js:36 | assignment keeps the names in JavaScript's order: array indices first, ascending, then the others in creation order |
| PropertyTree.Segments | index.js:32-43 | a key always has a last segment (`undefined` when the split is empty) |
| PropertyTree.AddProperty | index.js:31-44 | the walk-and-create loop returns the tree the reference insertion `Put` describes, or its error |
| PropertyTree.PutFinds | index.js:31-44 | after an insertion the value sits at the key's path |
| PropertyTree.PutKeeps | index.js:31-44 | every node at a path that parts ways with the key's path is unchanged |
| PropertyTree.PutBranches | index.js:33-39 | every proper prefix of the key's path is an object afterwards |
| PropertyTree.PutFresh | index.js:67-69 | inserting below an empty object never fails |
| PropertyTree.PutErrIff | index.js:33-43 | the insertion throws exactly when some proper prefix of the path holds a primitive |
| PropertyTree.GetNestedObject | index.js:66-72 | the loop returns `BuildTree`: the properties inserted in order into a fresh object |
| PropertyTree.BuildTreeErr | index.js:68-70 | once a property throws, the whole build throws with that error |
| PropertyTree.BuildTreeCovers | index.js:66-72 | on prefix-free keys the build never throws, and every leaf of the tree lies at or below some key's path |
| PropertyTree.BuildTreeFinds | index.js:66-72 | on prefix-free keys the build succeeds, each value sits at its key's path, and every leaf lies at or below some key's path |
| PropertyTree.BuildTreeOrdered | index.js:66-72 | every object of the tree lists its names in JavaScript's order, when the parser's objects do |
| PropertyTree.IndexOrderExample | index.js:66-72 | `a.2` then `a.1` builds `{"a":{"1":…,"2":…}}` |
| PropertyTree.BuildTreeWellFormed | index.js:66-72 | the tree holds only well-formed values when the parser returns only well-formed values |
| Json.Gap | index.js:82 | the indentation step is min(10, space) spaces, and none when space is below 1 |
| JsonRoundTrip.RoundTripValue | index.js:82 | a serialized value, minified or indented, reads back as the value, and reading stops where it ends |
| JsonRoundTrip.StringifyReadsBack | index.js:90 | the output of JSON.stringify, for any space, is a JSON text that reads back as the value |
| JsonOutput.PrettySpace | index.js:52-54 | unminified output with no space gets 2; otherwise space is kept |
| JsonOutput.WithNamespacePath | index.js:47-50 | the object sits below the namespace key when there is one, and at the root otherwise |
| JsonOutput.AddNamespaceAndPrettify | index.js:46-56 | returns the object wrapped under the namespace, and leaves space as PrettySpace says |
| JsonOutput.GetJsonOutput | index.js:78-92 | returns `JsonText`, the nested tree or the coerced flat map serialized under the namespace; space changes only when rendering succeeds |
| JsonOutput.FlatWellFormed | index.js:84-88 | the coerced flat values are well formed when the parser's values are |
| JsonOutput.JsonTextReadsBack | index.js:78-92 | the JSON output reads back as exactly the object built, under the namespace |
| JsonOutput.FlatJsonFinds | index.js:84-90 | reading the flat output back finds each property's coerced value under its whole key |
| JsonOutput.NestedJsonFinds | index.js:79-82 | on prefix-free keys, reading the nested output back finds each value at its key's path |
| JsonOutput.NestedJsonOrdered | index.js:79-82 | nested JSON output reads back as objects whose names are in JavaScript's order |
| JsonOutput.EmptyJson | test/main.js:406-417 | an empty file renders `{}`, or `{"ns":{}}` under a namespace |
| ScriptOutput.GetJsSimplePropsOutput | index.js:150-175 | one statement per property, in order: escaped key, and the parsed value or the escaped value in quotes |
| ScriptOutput.ReadEntryOf | index.js:165-172 | a flat statement written with an escaped key and value reads back as the raw key and value |
| ScriptOutput.SimpleStatementReadsBack | index.js:155-172 | a statement whose value is not parsed assigns exactly the raw key and value |
| ScriptOutput.WalkSegments | index.js:101-109 | the shift loop returns the walk `WalkPath` describes: existing segments are entered, missing ones are created and appended to `propPart`, and entering a primitive throws |
| ScriptOutput.RenderKey | index.js:97-146 | one key of the callback gives `KeyStep`: the guard and leaf pushes, and the shadow object and cursor afterwards |
| ScriptOutput.GetJsNestedPropsOutput | index.js:94-148 | the lines are `NestedRun`'s output, with the shadow object and cursor carried from key to key |
| ScriptOutput.NestedRunErr | index.js:97 | once a key throws, the whole rendering throws with that error |
| ScriptOutput.PushNewKeeps | index.js:142-144 | a push-unless-present keeps the output as a prefix, adds at most the one line, and keeps it free of repeats |
| ScriptOutput.EmitLines | index.js:110-144 | a key adds at most two lines at the end: its guard (only for a non-empty `propPart`), then its leaf; both are present afterwards and no line repeats |
| ScriptOutput.SingleSegmentStep | index.js:101-146 | a key without the delimiter emits no guard, only its leaf statement |
| ScriptOutput.FreshWalk | index.js:101-109 | a walk through segments that are all new creates each one, and `propPart` spells out the whole path |
| ScriptOutput.PathBrackets | index.js:133 | the leaf's property accesses are those of the intermediate path followed by the last segment's |
| ScriptOutput.FirstKey | index.js:94-148 | the first key's guard names its whole intermediate path and its leaf names its whole path |
| ScriptOutput.NestedRunNoDuplicates | index.js:118 | nested script output never holds the same line twice |
| ScriptOutput.ScriptNamespace | index.js:179-181 | no namespace becomes `props`; any other namespace is kept |
| ScriptOutput.HeaderText | index.js:182-186 | the header is `var NS=NS\|\|{};`, or `var NS = NS \|\| {};` when not minified |
| ScriptOutput.GetJsOutput | index.js:177-194 | returns `JsText` (header, then the flat or nested lines, joined), and stores the namespace it used |
| ScriptOutput.JoinedTerminated | index.js:192 | unminified output is every line followed by a line feed |
| ScriptOutput.TerminatedSplits | index.js:192 | splitting unminified output at line feeds gives the lines back, plus the empty text after the last line feed |
| ScriptOutput.EmptyScript | index.js:177-194 | an empty file renders only the header |
| ScriptOutput.EmptyScriptDefault | test/main.js:393-404 | an empty file renders `var props=props\|\|{};` by default |
| NestedWitnesses.GuardsDiffer | index.js:16-17 | guards of different paths differ, and no guard equals a leaf statement with a quoted value |
| NestedWitnesses.ThreeSegmentLines | index.js:110-144 | a first key `x.y.z` gives exactly the guard for `[x][y]`, then its leaf |
| NestedWitnesses.MissingPrefixGuard | index.js:110-120 | no guard is emitted for `[x]` alone, so the script assigns through `NS[x]` without creating it |
| NestedWitnesses.CollisionFirstKey | index.js:101-109 | after a first key `x.y` the cursor stays at `x`, and `[x][y]` holds a primitive |
| NestedWitnesses.CollisionScript | index.js:96-145 | `x.y` then `y.z`: the second walk starts at the persisting cursor, enters the primitive `y`, and the script renderer throws |
| NestedWitnesses.CollisionTree | index.js:66-72 | the same keys build a tree holding both values at their paths, because each tree walk starts at the root |
| Fixtures.FlatScriptPair | index.js:150-194 | minified flat script output of two quoted properties, written out |
| Fixtures.ReplaceFlatScript | test/main.js:64 | the expected flat script text for replace.properties |
| Fixtures.FlatJsonPair | index.js:83-90 | minified flat JSON output of two quoted properties, written out |
| Fixtures.ReplaceFlatJson | test/main.js:103 | the expected flat JSON text for replace.properties |
| Fixtures.NestedTreePair | index.js:31-44 | a plain key and a dotted key build a leaf and a branch holding a leaf |
| Fixtures.NestedJsonPair | index.js:79-82 | minified nested JSON output of that pair, written out |
| Fixtures.ReplaceNestedJson | test/main.js:116 | the expected nested JSON text for replace.properties |
| Fixtures.NestedScriptPair | index.js:94-148 | minified nested script output of that pair: the leaf, then the guard and the leaf of the dotted key |
| Fixtures.ReplaceNestedScript | test/main.js:77 | the expected nested script text for replace.properties |
| FileName.BaseStart | index.js:208 | the last path component starts after the last `/` |
| FileName.LastDot | index.js:208 | the position of the last dot, or none when there is no dot |
| FileName.ReplaceExtensionParts | index.js:208 | replacing the extension keeps the directory and the stem and gives the new extension |
| FileName.ReplaceExtensionIdempotent | index.js:208 | replacing the extension twice is replacing it once |
| FileName.AppendKeepsName | index.js:208 | with appendExt the whole old name, extension included, becomes the stem of the new name |
| FileName.NoExtExample | test/main.js:351-361 | `noExt.1` becomes `noExt.1.json` with appendExt, and `noExt.json` without it |
| Transform.CheckNamespace | index.js:226-232 | a reserved word is refused with the plugin's message; any other namespace becomes a valid identifier, unchanged if already valid; no namespace stays none |
| Transform.CheckNamespaceStable | index.js:226-232 | the stored namespace passes the next file's check unchanged, unless it is itself a reserved word |
| Transform.Props2Json | index.js:196-205 | renders JSON for `json`, a script for `js`, and nothing for any other type; namespace and space are left as the renderer leaves them |
| Transform.File.constructor | index.js:225 | a file holds its path and its contents (none for a null file) |
| Transform.TransformFile | index.js:225-260 | a reserved word: an error, nothing pushed, nothing changed. A null file: pushed as it is. A buffer file: contents replaced by the rendering and the path renamed, or, when rendering throws, the error reported and the file not pushed |

## Left out

- Streams: the stream branch of the file handler (index.js:233-247) is not modelled. It renders the stream's buffer and then renders `file.contents` again, a stream this time. through2 callbacks, error emission, and `file.isStream`/`isBuffer`/`isNull` are reduced to the `Option` contents of `File`.
- properties-parser: it is the `parseProps` parameter. Its output is taken as the key/value sequence `Object.keys` lists, so the array-index keys of the parser's own object already come first. The objects the tree builder makes follow JavaScript's order (PropertyTree.AssignKeys).
- JSON.parse: it is the `parse` parameter. Numbers are kept as the text the parser produced (`JNumber(repr)`). Number formatting, floating point, and `String(value)` of numbers are not modelled.
- The `replacer` option: JSON.stringify's replacer callback is taken as `null`.
- The rename warning: `gutil.log` when the namespace is renamed (index.js:26) is an informational side effect.
- is-keyword-js: it is the `isKeyword` parameter; its word list is not modelled.
- File path normalisation: `path.join` in `gutil.replaceExtension`, trailing slashes and Windows separators are not modelled. Paths use `/`, and an empty path is returned as it is.
- Identifier.ReplaceInvalid: works on whole characters. The source's regex has no `u` flag, so it replaces each UTF-16 code unit, and a character outside the Basic Multilingual Plane becomes two `_` in the source but one here.
- Identifier.GetValidIdentifier: for the same reason `a😀` gives `a__` in the source and `a_` here. Its length bound counts characters, not UTF-16 code units.
- Splitting.Split: with an empty separator the model splits into characters. JavaScript splits into UTF-16 code units, cutting a character outside the Basic Multilingual Plane into two halves.
- Buffer encoding: UTF-8 decoding of the file and encoding of the output are not modelled. Strings are sequences of Unicode scalar values, so lone surrogates cannot be represented.
- `space` as a string: only a numeric `space` is modelled. Any falsy `space` other than 0 (null, "") is not represented.
- Special property names: `__proto__` and the other inherited names behave differently on real objects. The model treats every name as an ordinary own property.
- Arrays in the tree: in `addProperty`, walking through a parsed array (with complexTypes) is reported as an error by the model. The source would index into the array.
- Error messages: the engine's TypeError texts (PrimitiveError, UndefinedError) are representative, not the exact text of any one JavaScript engine.
- JsonOutput.FlatJsonFinds: requires distinct keys, which `properties-parser` guarantees by returning an object.
- JsonOutput.NestedJsonFinds: stated for prefix-free keys only. For other keys, PutErrIff states when the build throws, and PutKeeps what it keeps.
- PropertyTree.BuildTreeFinds: stated for prefix-free keys only, for the same reason.
