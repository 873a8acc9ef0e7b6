# Front-matter metadata linter — a Dafny model

This project models the metadata linter of a documentation site
(`scripts/validate-metadata.js`). The linter walks the `docs` tree and takes
every Markdown file. It derives the file's *category* from the path segment
after `docs` and checks the file's front matter against that category's
*schema*. The checks are required fields, closed enumerations, the
recommended tag vocabulary and length limits. The result is an ordered list
of errors and an ordered list of warnings per file. A `validate` run adds
these up and exits non-zero if and only if some file has an error. The
`template` command prints a front-matter skeleton for a category.

Modules, one per concern of the script:

- `Results`: `Option` / `Result` (a thrown error is `Err(message)`).
- `Strings`: `startsWith`, `endsWith`, `includes`, `split`, `join`, with their round trips.
- `JsValues`: front-matter values (`Null | Bool | Num | Str | Arr | Obj`) and JavaScript truthiness. Also `String(v)` as a template literal applies it, `Array.prototype.includes` and `.length`.
- `Schemas`: the six-category schema table and the lookup.
- `Paths`: `getCategoryFromPath`.
- `Validator`, `ValidatorProperties`: `validateFileMetadata` and the properties of its reports.
- `Template`: `generateMetadataTemplate`.
- `Scan`: the `scanDirectory` filter over an abstract directory tree.
- `Cli`: the `validate` totals and exit code, and the command dispatch of `main`.
- `AsWrittenLookup`: the schema lookup exactly as written (see Findings).

Presence follows the code's JavaScript truthiness. A field is missing when it
is absent, `null`, `false`, `0` or `""`. Arrays and objects count as present
even when empty. An "absent or empty" rule would differ on `0`, `false`,
`[]` and `{}`; the model follows the code.

A thrown error inside the checks is caught and recorded with the same
"front-matter parse failure" prefix as a real parse failure. The model does
this too. In the model, the only throw the checks can reach is
`tag.includes` on a tag that is neither a string nor an array. The one error
is appended after the errors already recorded. No warnings are kept, because
none is pushed before the tag check. The source has two further throws. One
is `schema.required.forEach` for a category inherited from
`Object.prototype` (see Findings). The other is the string conversion of an
object with its own `toString` entry (see Left out).

The category comes from the first `docs` segment of the *absolute* path. If
the working directory itself contains a `docs` segment, that segment is the
one used. The model keeps this behaviour (`Paths.CategoryFromPath`).

## Model

| member | source | states |
|---|---|---|
| JsValues.Truthy | scripts/validate-metadata.js:61 | a value is falsy exactly when it is `null`, `false`, `0` or `""`; arrays and objects are always truthy |
| JsValues.NatToStringRoundTrip | scripts/validate-metadata.js:100 | the decimal text cited in length warnings reads back as the number |
| JsValues.IntToStringRoundTrip | scripts/validate-metadata.js:69 | `String(n)` for an integer (used when an invalid numeric enum value is displayed) is a sign and canonical digits that read back as `n` |
| JsValues.Display | scripts/validate-metadata.js:69-93 | `${v}` gives a string as itself, an integer as canonical digits that read back as the number, an empty array as "", and a one-element array as its element's string form (`null` as "") |
| JsValues.LengthOf | scripts/validate-metadata.js:98-106 | a value with a positive `.length` is always truthy, so the truthiness guards at lines 98 and 105 never suppress a length warning; a string's length is its character count and an array's its element count |
| Strings.ContainsIffOccurs | scripts/validate-metadata.js:89 | `hay.includes(needle)` holds exactly when `needle` occurs at some index of `hay` |
| Strings.JoinSplit | scripts/validate-metadata.js:120 | joining the pieces of `split(sep)` with `sep` restores the path |
| Strings.SplitJoin | scripts/validate-metadata.js:120 | splitting a join of separator-free segments gives the segments back |
| Paths.FirstIndexOf | scripts/validate-metadata.js:121 | `findIndex` returns -1 exactly when the segment is absent, otherwise an index holding it with no earlier occurrence |
| Paths.CategoryFromPath | scripts/validate-metadata.js:119-126 | the category is the segment after the first `docs` segment; "unknown" when no segment before the last is `docs` |
| Paths.CategoryOfDocsPath | scripts/validate-metadata.js:119-126 | every path `<prefix>/docs/<c>/<rest>` whose prefix has no `docs` segment has category `c` |
| Schemas.TableKeys | scripts/validate-metadata.js:8-42 | the table's keys are exactly the six categories, listed once each |
| Schemas.TableWellFormed | scripts/validate-metadata.js:8-42 | every schema's required fields are distinct plain keys and each tag vocabulary present is non-empty |
| Schemas.SchemaFor | scripts/validate-metadata.js:52-54 | a schema is found exactly for the six listed categories, and it is that category's table entry |
| Schemas.LookupAsWritten | scripts/validate-metadata.js:52-54 | the as-written lookup finds an own schema exactly where `SchemaFor` does, and an inherited prototype member exactly for the `Object.prototype` names |
| Validator.RequiredErrors | scripts/validate-metadata.js:60-64 | at most one error per required field, each a "missing field" message |
| Validator.RequiredErrorsAppend | scripts/validate-metadata.js:60-64 | errors for earlier required fields precede those for later ones (schema order) |
| Validator.MissingFieldCount | scripts/validate-metadata.js:60-64 | the error naming `f` occurs once per listing of `f` when `f` is falsy and never when it is truthy |
| Validator.RequiredErrorsByPresence | scripts/validate-metadata.js:61 | the required-field check depends only on each field's truthiness |
| Validator.EnumError | scripts/validate-metadata.js:67-83 | one error, naming the displayed value, iff the schema has the enumeration, the field is truthy and no entry equals it; none otherwise |
| Validator.EnumAcceptsMembers | scripts/validate-metadata.js:67-83 | any entry of the enumeration is accepted |
| Validator.OverlapsOne | scripts/validate-metadata.js:89 | for one recommended tag `v`, the call throws exactly for `null`, booleans, numbers and objects, with the message JavaScript gives; `v` always overlaps itself, given as a string or as the one-element array `[v]` |
| Validator.ArrayTagNoWider | scripts/validate-metadata.js:89 | wrapping a string tag in a one-element array never makes it overlap a recommended tag it does not overlap on its own |
| Validator.TagOverlaps | scripts/validate-metadata.js:87-91 | a string tag overlaps iff some recommended tag contains it or is contained in it; `null`, booleans, numbers and objects throw (unless the vocabulary is empty), arrays never throw |
| Validator.InvalidTags | scripts/validate-metadata.js:87-91 | the filter throws exactly when the vocabulary is non-empty and some tag is a non-string non-array; otherwise it keeps at most all tags |
| Validator.InvalidTagsMembers | scripts/validate-metadata.js:87-91 | over string tags the filter keeps exactly the tags no recommended tag overlaps |
| Validator.InvalidTagsAppend | scripts/validate-metadata.js:87-91 | unrecognised tags keep their original relative order |
| Validator.TagWarnings | scripts/validate-metadata.js:86-95 | at most one tag warning; none without an array `tags` or without a vocabulary (e.g. `interview`); over string tags it appears iff some tag is unrecognised, and lists all of them |
| Validator.LengthWarning | scripts/validate-metadata.js:98-109 | at most one warning, iff the field's length exceeds the limit, citing that length; truthiness adds no further condition |
| Validator.TitleBoundary | scripts/validate-metadata.js:98-102 | a 60-character title gives no warning; a 61-character title gives exactly one, citing 61 |
| Validator.DescriptionBoundary | scripts/validate-metadata.js:105-109 | a 160-character description gives no warning; 161 gives exactly one, citing 161 |
| Validator.CheckSchema | scripts/validate-metadata.js:59-115 | a known category's report has at most one error per required field plus four, and at most three warnings |
| ValidatorProperties.EnumErrorInReport | scripts/validate-metadata.js:67-83 | in the whole report, the invalid-value error for difficulty, project type or status appears iff that field's own check raises it; no other check produces it, and a caught tag throw keeps it |
| ValidatorProperties.WarningsInSourceOrder | scripts/validate-metadata.js:86-109 | without a tag throw, the warnings are the tag warning, then the title warning, then the description warning, each present or not |
| ValidatorProperties.LengthWarningInReport | scripts/validate-metadata.js:98-109 | without a tag throw, the report carries a length warning citing `n` iff the field's length is `n` and exceeds its limit |
| Validator.ValidateFrontMatter | scripts/validate-metadata.js:51-57 | a category without a schema yields no error and exactly the unknown-category warning |
| Validator.ValidateFileMetadata | scripts/validate-metadata.js:45-116 | a parse failure yields exactly one error and no warning; an unknown category yields zero errors and one warning |
| ValidatorProperties.UnknownCategoryIgnoresFrontMatter | scripts/validate-metadata.js:51-57 | for an unknown category the report is the same whatever the front matter |
| ValidatorProperties.MissingFieldReportedOnce | scripts/validate-metadata.js:59-83 | in the whole report, the "missing `f`" error occurs once per listing of `f` when `f` is falsy, never otherwise |
| ValidatorProperties.MissingFieldExactlyOnce | scripts/validate-metadata.js:60-64 | for each table category, exactly one missing-field error per falsy required field and none for other fields |
| ValidatorProperties.ThrowingTagKeepsEarlierErrors | scripts/validate-metadata.js:86-113 | a throwing tag keeps every earlier error in order, appends one error after them and leaves no warnings |
| ValidatorProperties.CategoryValueIgnored | scripts/validate-metadata.js:66-83 | `category` is never checked against `categories`: any two equally truthy values give the same report |
| Template.SampleTags | scripts/validate-metadata.js:162 | the sample is the first `min(3, n)` recommended tags, or the placeholders `tag1`, `tag2` for a schema without a vocabulary |
| Template.FieldLines | scripts/validate-metadata.js:153-193 | the shape of each field's block: one line starting `field:`, and for `tech_stack` three further indented lines |
| Template.EnumDefaultInTemplate | scripts/validate-metadata.js:168-183 | every enumerated required field (difficulty, category, project_type, status) is emitted as `field: "<first entry>"`, or `"undefined"` for an empty enumeration |
| Template.EnumFallbackInTemplate | scripts/validate-metadata.js:168-183 | without an enumeration, the emitted defaults are "easy", "general", "web_application" and "planned" |
| Template.TagsLineInTemplate | scripts/validate-metadata.js:161-164 | the `tags` line lists exactly the sample tags, each double-quoted, separated by ", " |
| Template.PlaceholderTagsInTemplate | scripts/validate-metadata.js:161-163 | a required `tags` field of a schema without a vocabulary is emitted as `tags: ["tag1", "tag2"]` |
| Template.InterviewTemplateDefaults | scripts/validate-metadata.js:36-41 | the `interview` skeleton emits `difficulty: "easy"`, `category: "技术基础"` and, having no vocabulary, `tags: ["tag1", "tag2"]` |
| Template.GenerateTemplate | scripts/validate-metadata.js:147-199 | "" exactly for a category without a schema; otherwise text starting with `---` and a newline and ending with `---` and a newline |
| Template.TemplateKeysAreRequiredFields | scripts/validate-metadata.js:151-198 | the skeleton's top-level keys are the required fields in schema order |
| Template.TemplateReadsBack | scripts/validate-metadata.js:195-198 | splitting the text at line breaks gives the skeleton lines back |
| Template.GeneratedKeysAreRequiredFields | scripts/validate-metadata.js:147-198 | for every table category, the generated text's top-level keys are exactly its required fields in order |
| Template.EnumDefaultAccepted | scripts/validate-metadata.js:168-183 | the enumerated default is the enumeration's first entry, so the validator's enumeration check accepts it |
| Template.SampleTagsRecognised | scripts/validate-metadata.js:161-164 | the sample tags never draw the unrecognised-tag warning |
| Template.ProjectsTemplate | scripts/validate-metadata.js:29-35 | the `projects` skeleton lists its six required fields in order, with `status` defaulting to "completed" |
| Scan.ScanDirectory | scripts/validate-metadata.js:129-144 | every collected path ends in `.md` |
| Scan.ScanFindsExactlyCollected | scripts/validate-metadata.js:129-144 | a document is collected iff it is a `.md` file reached only through directories that are neither hidden nor `node_modules` |
| Cli.SumErrorsPositive | scripts/validate-metadata.js:248 | the error total is positive iff some file has an error |
| Cli.WarningsDoNotCount | scripts/validate-metadata.js:230-236 | changing any file's warnings leaves the error total unchanged |
| Cli.Tally | scripts/validate-metadata.js:219-253 | totals are the sums of per-file counts; the error total is positive iff some file has errors; the printed blocks are exactly the files with errors or warnings, in document order (`Blocks`) |
| Cli.RunCommand | scripts/validate-metadata.js:202-279 | no or an unknown command prints usage and exits 0; missing `docs` exits 1; `validate` exits non-zero iff some collected file has an error; `template` exits 1 with the category list iff the category is missing or has no schema, else prints the non-empty skeleton |
| AsWrittenLookup.ValidateFrontMatterAsWritten | scripts/validate-metadata.js:52-57 | as written, an inherited prototype name yields one parse-failure error and no warning; every other category behaves as the corrected model |
| AsWrittenLookup.GenerateTemplateAsWritten | scripts/validate-metadata.js:147-153 | as written, an inherited prototype name throws; every other category gives the corrected template |
| AsWrittenLookup.ConstructorDirectoryCounterexample | scripts/validate-metadata.js:52-57 | `docs/constructor/intro.md` has category `constructor`: as written it gets an error, the corrected model gives only the unknown-category warning |
| AsWrittenLookup.UnlistedCategoryOnlyWarned | scripts/validate-metadata.js:52-57 | with the corrected lookup, every unlisted category (prototype names included) gets exactly the unknown-category warning and an empty template |

## Left out

- YAML parsing by `gray-matter` is a foreign library. It is the parameter `parse: string -> Result<FrontMatter>`. A front-matter block whose top level is not a mapping is not modelled.
- File-system and process plumbing is not modelled: `readdirSync`, `statSync`, `readFileSync`, `existsSync`, `process.cwd`, `process.exit` and console formatting. The docs directory is an abstract tree (`Scan.Node`) with file contents in it, or `None` when it does not exist. The exit status is `Cli.ExitCode`.
- Entries other than files and directories (symlinks, sockets) are not modelled. A `docs` path that exists but is a file makes `readdirSync` throw uncaught; that case is not modelled either.
- `path.sep` is fixed to `/`. `path.join` normalisation is not modelled, and neither is `path.relative`: printed blocks carry the full path.
- `.length` of a string counts code points here, where JavaScript counts UTF-16 code units. The two differ for characters outside the Basic Multilingual Plane.
- Numbers are integers only. Fractions, `NaN` (which is falsy), infinities and the exponent notation of `String(n)` for magnitudes of 1e21 or more are not modelled. YAML dates and other tagged types are not modelled either.
- JsValues.LengthOf: an object whose `length` entry is not a number is treated as having no length. JavaScript would coerce that entry in the `> 60` comparison.
- JsValues.Display: an object with its own `toString` entry is rendered as `[object Object]`. In JavaScript that entry can never be a function, since YAML produces none. So `String(obj)` throws "Cannot convert object to primitive value", and lines 111-112 catch it as a parse-failure error. An own `valueOf` entry alone renders `[object Object]`, as in the model.
- The unused `filePath` parameter of `generateMetadataTemplate` and the `[filepath]` argument of `template` are not modelled.
- Validator.ValidateFrontMatter, Validator.ValidateFileMetadata, Template.GenerateTemplate and Cli.RunCommand use the own-key lookup `Schemas.SchemaFor`. For the twelve `Object.prototype` names they differ from the source, as the Findings row explains. The source's behaviour for those names is `AsWrittenLookup.ValidateFrontMatterAsWritten` and `AsWrittenLookup.GenerateTemplateAsWritten`.
- `sidebars.ts` and `docusaurus.config.ts` are static site configuration with no behaviour, so they are not part of this model.
- `src/components/*` are presentational React components, so they are not part of this model.

## Findings

| source | as written | input that shows it | evidently intended | confidence | as-written member | corrected member |
|---|---|---|---|---|---|---|
| scripts/validate-metadata.js:52-57 | `METADATA_SCHEMAS[category]` also reads members inherited from `Object.prototype`. A category such as `constructor`, `toString` or `__proto__` therefore passes the `!schema` test. `schema.required.forEach` then throws, and the catch reports a front-matter parse failure. The `template` command (lines 148 and 259) passes its guard the same way and then crashes. | a file `docs/constructor/intro.md` with any front matter | an unlisted category gets only the unknown-category warning (an own-key lookup) | not executed; high that the lookup reads inherited members, medium that such directory names occur | AsWrittenLookup.ValidateFrontMatterAsWritten, AsWrittenLookup.ConstructorDirectoryCounterexample | Schemas.SchemaFor, AsWrittenLookup.UnlistedCategoryOnlyWarned |
