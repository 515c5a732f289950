# Tinybird Markdoc extension and `create` scaffolding, in Dafny

This project models the tag layer of the Tinybird Markdoc extension and the
resource scaffolding rules of the Tinybird CLI.

**The Markdoc extension.** It adds two custom tags to Markdoc documents:
- `query` wraps a SQL body in `pre > code.language-sql`;
- `datasource` reads a delimited column schema (name | type | path |
  description) from its body and renders it as an HTML table.

**`TinybirdParser`.** It registers these tags on top of Markdoc. It offers
`renderHtml` and `parseFile`; `parseFile` also decodes the YAML frontmatter.

**Module layout.** The package ships two variants that really behave
differently, and each has its own module:
- `TinybirdMarkdoc` (`markdoc_ext.dfy`) models the current TypeScript source.
- `TinybirdMarkdocDist` (`markdoc_ext_dist.dfy`) models the older compiled
  JavaScript. It registers `query` and `table` as node schemas and attaches
  `sql` and `columns` as attributes. It keeps short schema rows, and its
  `parseFile` returns HTML text.
- `CreateCommand` (`create_command.dfy`) models the CLI's `create` command:
  - the map from resource type to directory;
  - the template text of each resource type;
  - the upward search for a `tinybird` project directory;
  - the choice of the file to write, or of the error to report.

**Shared modules.**
- `JsStrings` (`js_strings.dfy`) states the JavaScript string operations the
  code relies on:
  - `String.prototype.trim`, over the ECMAScript white-space and
    line-terminator set;
  - `split` with a non-empty string separator;
  - `Array.prototype.join`.
- `Markdoc` (`markdoc.dfy`) holds the data the extension exchanges with
  Markdoc:
  - renderable nodes (`Tag`, or a scalar child) and AST nodes;
  - schemas and configurations;
  - the JavaScript values that can occur as attributes or children, and how
    `join` turns them into text (`undefined` and `null` join as the empty
    string, an object as `[object Object]`).

**Foreign calls.** Markdoc's own operations (`parse`, `transform`,
`renderers.html`), the YAML decoder and Markdoc's built-in node table are
not visible in this code. They are the fields of an `Engine` value that
callers pass in. The YAML decoder returns a `Result`, so a thrown decode
error is a `Failure`.

**What is imperative.** The `datasource` transform collects its columns
with nested `forEach` loops. `CollectColumns` (outer loop) and
`CollectItemColumns` (inner loop) are `while` loops. The inner loop is
proved equal to the reference function `RowsOf` over the strings of one
child's items; the outer loop is proved equal to the reference function
`ExtractColumns`, which is `RowsOf` over the strings of all children. The
extraction properties are lemmas about these functions. `findTinybirdDir` is likewise a `while`
loop, proved equal to the reference search `SearchUp`.

**What is a datatype.** `TinybirdParser` never changes its configuration
after construction, so it is a datatype holding that configuration.

**Paths.** The CLI's paths are sequences of segments below the root; the
root is the empty sequence. Whether a path exists is a predicate passed in.

## Notes on the code

- **Query name attribute.** The `query` tag's `name` reaches the `pre`
  element as an ordinary attribute under its own name, with every other
  resolved attribute (`src/index.ts:20`). No `data-` attribute is made.
- **Validation errors.** This code raises no missing-attribute, unknown-tag
  or syntax error. Those belong to Markdoc, which is outside the model.
- **Frontmatter that decodes to `null`.** The current source
  (`src/index.ts:131-133`) replaces only an absent or empty attribute by
  `{}`. When the decoder returns `null`, for example for a block holding
  only a comment, the `frontmatter` of the result is `null`; the result
  itself is still the usual object with the transformed tree as its
  `content`. `TinybirdMarkdoc.ParseFile` keeps that behaviour. The older
  variant replaces every falsy decoding by `{}`, and
  `TinybirdMarkdocDist.ParseFile` proves its frontmatter is always truthy.
- **Short rows.** Only the current source drops rows that lack a name,
  type or path. The older variant keeps such rows, with the missing fields
  `undefined` (`TinybirdMarkdocDist.ShortRowsKept`).

## Model

| member | source | states |
|---|---|---|
| JsStrings.Trim | tinybird-markdoc-ext/src/index.ts:48 | the result has no white space at either end; it is the input with only white space removed from its two ends; it is empty exactly when the input is all white space; a string already trimmed is returned unchanged |
| JsStrings.Split | tinybird-markdoc-ext/src/index.ts:50-51 | splitting with a non-empty separator always gives at least one piece, so the name field always exists |
| JsStrings.JoinSplit | tinybird-markdoc-ext/src/index.ts:50-51 | splitting loses nothing: joining the pieces with the separator rebuilds the string |
| JsStrings.SplitNoSeparator | tinybird-markdoc-ext/src/index.ts:50-51 | a line that does not contain the delimiter is one single piece |
| JsStrings.SplitAtFirst | tinybird-markdoc-ext/src/index.ts:50-51 | split cuts at the first occurrence of the delimiter and continues on the rest |
| JsStrings.SplitJoin | tinybird-markdoc-ext/dist/index.js:35-37 | splitting a join of delimiter-free parts gives exactly those parts back |
| JsStrings.TrimUnique | tinybird-markdoc-ext/src/index.ts:48 | `trim` is fixed by its contract: a trimmed slice with only white space before and after it is the trim |
| JsStrings.TrimPrefix | tinybird-markdoc-ext/src/index.ts:48 | white space in front of a string does not change its trim |
| JsStrings.TrimSuffix | tinybird-markdoc-ext/src/index.ts:48 | white space after a string does not change its trim |
| JsStrings.TrimAround | tinybird-markdoc-ext/src/index.ts:48 | white space on both sides of a string does not change its trim |
| JsStrings.SplitPrepend | tinybird-markdoc-ext/src/index.ts:50-51 | text without the separator in front of a string joins the first piece of its split |
| JsStrings.SplitAppend | tinybird-markdoc-ext/src/index.ts:50-51 | text without the separator after a string joins the last piece of its split |
| JsStrings.SplitAround | tinybird-markdoc-ext/src/index.ts:50-51 | separator-free text on both sides joins the first and the last piece, the rest unchanged |
| JsStrings.SplitTrimmedPieces | tinybird-markdoc-ext/src/index.ts:48-52 | for a one-character separator that is not white space, trimming the line before splitting it leaves the trimmed pieces unchanged |
| JsStrings.Join | tinybird-markdoc-ext/dist/index.js:15 | joining a single element gives that element |
| Markdoc.FrontmatterAttribute | tinybird-markdoc-ext/src/index.ts:131 | `ast.attributes.frontmatter` is that attribute's value, or `undefined` when the key is absent; what `parseFile` does with it is stated by `TinybirdMarkdoc.ParseFile` |
| Markdoc.JoinValues | tinybird-markdoc-ext/dist/index.js:15 | an empty array joins to the empty string |
| Markdoc.ChildStrings | tinybird-markdoc-ext/dist/index.js:15 | one string per child, in order, each the text `join` writes for that child; that a join of these strings splits back into them is `JsStrings.SplitJoin`, applied in `TinybirdMarkdocDist.SqlLines` |
| Markdoc.TextJoinString | tinybird-markdoc-ext/dist/index.js:35 | a text child joins as its own text |
| Markdoc.IntToString | tinybird-markdoc-ext/dist/index.js:15 | a number child joins as its decimal text: for `n >= 0` digits with no leading zero whose value is `n`; for `n < 0` a minus sign followed by the digits of `-n` |
| TinybirdMarkdoc.BuiltinTagSchemas | tinybird-markdoc-ext/src/index.ts:9-30 | the registry holds `query` (rendered as `pre`) and `datasource` (rendered as `div`); both require a string `name`; only `datasource` has `delimiter`, optional, defaulting to `\|` |
| TinybirdMarkdoc.QueryTransform | tinybird-markdoc-ext/src/index.ts:15-22 | the result is a `pre` tag carrying the resolved attributes, with exactly one child: a `code` tag whose only attribute is `class: language-sql` and whose children are the transformed children, unchanged |
| TinybirdMarkdoc.QueryTextContent | tinybird-markdoc-ext/src/index.ts:20-22 | the text of the query block is the text of its body, and an empty body gives an empty code block |
| TinybirdMarkdoc.Fields | tinybird-markdoc-ext/src/index.ts:50-52 | one field per piece of the split, each the trimmed piece and itself trimmed; there is always at least one |
| TinybirdMarkdoc.RowOf | tinybird-markdoc-ext/src/index.ts:48-55 | a blank text gives no column; a column it gives has non-empty, trimmed name, type and path, and a trimmed description if there is one (the field values are stated by `RowOfLine`) |
| TinybirdMarkdoc.RowOfLine | tinybird-markdoc-ext/src/index.ts:48-55 | for a one-character delimiter that is not white space and any line: there is a column exactly when the line has at least three pieces and the first three trimmed pieces are non-empty; its name, type, path and description are then the first four trimmed pieces, and later pieces are dropped |
| TinybirdMarkdoc.RowOfPieces | tinybird-markdoc-ext/src/index.ts:48-55 | the same for a line given as delimiter-free pieces joined by the delimiter: the fields are the trimmed pieces themselves |
| TinybirdMarkdoc.PaddedField | tinybird-markdoc-ext/src/index.ts:52 | a field with one space on each side trims to itself |
| TinybirdMarkdoc.PaddedRow | tinybird-markdoc-ext/src/index.ts:48-55 | a line of five space-padded fields gives the first four, unpadded, and drops the fifth |
| TinybirdMarkdoc.ExtractColumns | tinybird-markdoc-ext/src/index.ts:42-60 | there are no more columns than examined strings; a column is there exactly when some examined string parses to it; every column has a non-empty name, type and path |
| TinybirdMarkdoc.ChildArray | tinybird-markdoc-ext/src/index.ts:44 | a scalar child that is not an object has no `children` array, so it is never examined |
| TinybirdMarkdoc.RowsOfAppend | tinybird-markdoc-ext/src/index.ts:43-58 | extraction keeps order: the columns of two runs of strings are the columns of the first run, then those of the second |
| TinybirdMarkdoc.RowsOfSingle | tinybird-markdoc-ext/src/index.ts:53-55 | one string contributes its column if the line parser gives one, and nothing otherwise |
| TinybirdMarkdoc.RowsOfMembers | tinybird-markdoc-ext/src/index.ts:46-55 | a column is emitted exactly when some examined string parses to it |
| TinybirdMarkdoc.RowsOfLength | tinybird-markdoc-ext/src/index.ts:46-55 | there are never more columns than examined strings, and none when no string parses |
| TinybirdMarkdoc.BlankStringsGiveNoColumns | tinybird-markdoc-ext/src/index.ts:47-49 | when every examined string is empty or white space, no column is produced |
| TinybirdMarkdoc.RowOfFormatRow | tinybird-markdoc-ext/src/index.ts:48-55 | a column written as a delimited line is read back as that same column, an empty description included |
| TinybirdMarkdoc.LineWithoutDelimiter | tinybird-markdoc-ext/src/index.ts:50-53 | a line without the delimiter has no type field and gives no column |
| TinybirdMarkdoc.ShortRowDropped | tinybird-markdoc-ext/src/index.ts:53 | the row `bad\|Int32`, which has no path, is dropped |
| TinybirdMarkdoc.MalformedRowsDropped | tinybird-markdoc-ext/src/index.ts:43-58 | in a paragraph holding a full row, an empty string and a short row, only the full row becomes a column |
| TinybirdMarkdoc.TwoRowSchema | tinybird-markdoc-ext/src/index.ts:43-81 | two full rows give two columns, the second with an empty description, and a table body with two rows |
| TinybirdMarkdoc.TwoParagraphStrings | tinybird-markdoc-ext/src/index.ts:44-47 | the strings inside a paragraph child are examined, in order |
| TinybirdMarkdoc.ParagraphStrings | tinybird-markdoc-ext/src/index.ts:44-47 | the same for a paragraph of three strings |
| TinybirdMarkdoc.BarDelimitedRow | tinybird-markdoc-ext/src/index.ts:29 | with the default bar delimiter, `id\|Int32\|/id\|x` is one column |
| TinybirdMarkdoc.CommaDelimitedRow | tinybird-markdoc-ext/src/index.ts:51 | with `delimiter=","`, the comma-separated line gives the same column |
| TinybirdMarkdoc.TableHeaderLabels | tinybird-markdoc-ext/src/index.ts:63-70 | the header is one `tr` in a `thead` whose cells are labelled Name, Type, Path and Description, as many as a body row has |
| TinybirdMarkdoc.ColumnRow | tinybird-markdoc-ext/src/index.ts:73-79 | a body row is a `tr` without attributes of four `td` cells, each without attributes and holding one value, and it reads back as its column |
| TinybirdMarkdoc.TableBody | tinybird-markdoc-ext/src/index.ts:72-81 | `tbody` has exactly one `tr` per column, in column order, each with the four cells name, type, path and description |
| TinybirdMarkdoc.RowsColumnsOfRows | tinybird-markdoc-ext/src/index.ts:73-80 | the body rows can be read back as exactly the columns they were built from |
| TinybirdMarkdoc.DatasourceTable | tinybird-markdoc-ext/src/index.ts:83-86 | the table has class `datasource-table`, the fixed header first, then a `tbody` with one row per column that reads back as exactly the columns, in order |
| TinybirdMarkdoc.DatasourceContainer | tinybird-markdoc-ext/src/index.ts:88 | the container is a `div` holding only the table; it has every resolved attribute, and class `datasource-container` unless a resolved `class` overrides it |
| TinybirdMarkdoc.CollectItemColumns | tinybird-markdoc-ext/src/index.ts:46-58 | the inner loop pushes exactly the columns of the string items, in order |
| TinybirdMarkdoc.CollectColumns | tinybird-markdoc-ext/src/index.ts:42-60 | the nested loops collect exactly the columns of `ExtractColumns`: child after child, item after item, only strings one level inside object children |
| TinybirdMarkdoc.DatasourceTransform | tinybird-markdoc-ext/src/index.ts:31-89 | the transform's result is the container built from the extracted columns under the resolved delimiter |
| TinybirdMarkdoc.NewParser | tinybird-markdoc-ext/src/index.ts:101-109 | the tags are the built-ins and the caller's; a caller tag of the same name wins, built-ins that are not overridden remain, and the rest of the configuration is kept |
| TinybirdMarkdoc.DefaultParserConfig | tinybird-markdoc-ext/src/index.ts:144 | the default instance knows exactly the two built-in tags |
| TinybirdMarkdoc.RenderHtml | tinybird-markdoc-ext/src/index.ts:122-126 | the HTML is Markdoc's serialisation of the parsed text transformed under the parser's own configuration |
| TinybirdMarkdoc.ParseFile | tinybird-markdoc-ext/src/index.ts:129-140 | without frontmatter the result is `{}` with the transformed tree; with frontmatter, a decoder error is the error, and otherwise the frontmatter is the decoded value; the content is exactly `transform(parse(text))` |
| TinybirdMarkdoc.ParseFileAgreesWithRenderHtml | tinybird-markdoc-ext/src/index.ts:122-139 | serialising `parseFile`'s content gives what `renderHtml` returns |
| TinybirdMarkdocDist.NodeSchemas | tinybird-markdoc-ext/dist/index.js:6-30 | `queryNode` renders as `Query` and `tableNode` as `Table`; both require a string `name`; only `tableNode` has `delimiter`, optional, defaulting to `\|` |
| TinybirdMarkdocDist.QueryNodeTransform | tinybird-markdoc-ext/dist/index.js:11-23 | the node is unchanged except for its attributes, which are the resolved ones plus `sql`, the children joined by line breaks |
| TinybirdMarkdocDist.SqlLines | tinybird-markdoc-ext/dist/index.js:15 | when no child's text contains a line break, the `sql` text puts each child on its own line: split at line breaks it gives back the children's texts; it is empty for an empty body |
| TinybirdMarkdocDist.Piece | tinybird-markdoc-ext/dist/index.js:40 | array destructuring gives the i-th piece when there is one, `undefined` otherwise; the pieces of a line are stated by `LineColumnOfPieces` |
| JsStrings.TrimAll | tinybird-markdoc-ext/dist/index.js:40-42 | `.map(s => s.trim())`: each piece trimmed, one for one, each result trimmed; `SplitTrimmedPieces` and `LineColumnOfTrimmedPieces` state what it gives on a line |
| TinybirdMarkdocDist.LineColumn | tinybird-markdoc-ext/dist/index.js:39-43 | name, type, path and description are the first four trimmed pieces of the untrimmed line split on the delimiter; the name is always present |
| TinybirdMarkdocDist.SchemaLines | tinybird-markdoc-ext/dist/index.js:35-37 | the body always has at least one line |
| TinybirdMarkdocDist.TableColumns | tinybird-markdoc-ext/dist/index.js:35-44 | one column per non-blank line, in line order, each the line's positional fields; which lines are kept is `NonBlankMembers`, and the fields of a line are `LineColumnOfPieces` |
| TinybirdMarkdocDist.TableNodeTransform | tinybird-markdoc-ext/dist/index.js:31-52 | the node is unchanged except for its attributes: the resolved ones are kept, and `columns` is added and wins over any attribute of that name |
| TinybirdMarkdocDist.ColumnValue | tinybird-markdoc-ext/dist/index.js:43 | the object literal `{ name, type, path, description }` reads back as its column, undefined fields included |
| TinybirdMarkdocDist.ColumnsValue | tinybird-markdoc-ext/dist/index.js:36-50 | the `columns` array has one object per column, in order, each reading back as its column |
| TinybirdMarkdocDist.ColumnsValueRoundTrip | tinybird-markdoc-ext/dist/index.js:43-50 | the `columns` attribute holds exactly the columns, in order, and can be read back |
| TinybirdMarkdocDist.NonBlank | tinybird-markdoc-ext/dist/index.js:38 | the filter never adds lines, and every line it keeps has a non-empty trim |
| TinybirdMarkdocDist.NonBlankMembers | tinybird-markdoc-ext/dist/index.js:38 | the filter keeps exactly the lines whose trim is non-empty |
| TinybirdMarkdocDist.NonBlankAppend | tinybird-markdoc-ext/dist/index.js:38 | the filter keeps line order |
| TinybirdMarkdocDist.NonBlankKeepsContent | tinybird-markdoc-ext/dist/index.js:38-44 | no line with content is dropped, whatever its fields |
| TinybirdMarkdocDist.LinesAreChildren | tinybird-markdoc-ext/dist/index.js:35-44 | when no child holds a line break, the lines are the children's texts and there is one column per non-blank child |
| TinybirdMarkdocDist.LineColumnOfPieces | tinybird-markdoc-ext/dist/index.js:40-42 | a line made of delimiter-free pieces gives those pieces, trimmed, as its fields |
| TinybirdMarkdocDist.LineColumnOfTrimmedPieces | tinybird-markdoc-ext/dist/index.js:40-42 | pieces that are already trimmed come back unchanged |
| TinybirdMarkdocDist.ShortRowsKept | tinybird-markdoc-ext/dist/index.js:36-44 | a full row, a blank line and the short row `bad\|Int32` give two columns; the short one has no path and no description |
| TinybirdMarkdocDist.ThreeLineBody | tinybird-markdoc-ext/dist/index.js:36-44 | two lines with content around a blank one give two columns |
| TinybirdMarkdocDist.FullColumn | tinybird-markdoc-ext/dist/index.js:39-43 | a line with four fields fills all four |
| TinybirdMarkdocDist.ShortColumn | tinybird-markdoc-ext/dist/index.js:39-43 | a line with two fields leaves path and description `undefined` |
| TinybirdMarkdocDist.NewParser | tinybird-markdoc-ext/dist/index.js:56-66 | the nodes are Markdoc's, then `query` and `table`, then the caller's, each later entry winning; tags and the rest of the configuration are the caller's |
| TinybirdMarkdocDist.DefaultParserConfig | tinybird-markdoc-ext/dist/index.js:102 | the default instance has Markdoc's nodes with `query` and `table` set to this extension's schemas |
| TinybirdMarkdocDist.RenderHtml | tinybird-markdoc-ext/dist/index.js:83-87 | the HTML is Markdoc's serialisation of the parsed text transformed under the parser's own configuration |
| TinybirdMarkdocDist.ParseFile | tinybird-markdoc-ext/dist/index.js:91-98 | a decoder error is the error; otherwise the frontmatter is the decoded value, or `{}` when that is falsy, so it is always truthy, and the content is the HTML of the transformed tree |
| TinybirdMarkdocDist.ParseFileAgreesWithRenderHtml | tinybird-markdoc-ext/dist/index.js:83-98 | `parseFile`'s content is exactly what `renderHtml` returns |
| CreateCommand.ParseResourceType | tinybird-cli/src/commands/create/index.ts:19-24 | the type argument accepts exactly the five spellings, each naming its own type |
| CreateCommand.ParseTypeName | tinybird-cli/src/commands/create/index.ts:19-24 | every resource type is accepted under its own spelling |
| CreateCommand.ResourceDir | tinybird-cli/src/commands/create/index.ts:90-99 | a query's directory is `queries`; every other type's is its name plus `s` |
| CreateCommand.ResourceDirInjective | tinybird-cli/src/commands/create/index.ts:90-99 | no two types share a directory |
| CreateCommand.TemplateContent | tinybird-cli/src/commands/create/index.ts:41-88 | every template starts with the frontmatter block `---`, `type: <type>`, `name: <name>`, `---` |
| CreateCommand.TemplateLayout | tinybird-cli/src/commands/create/index.ts:41-84 | each template is the frontmatter, a blank line for tables and queries only, the opening tag, the body and the matching closing tag, each on its own line |
| CreateCommand.TableLayout | tinybird-cli/src/commands/create/index.ts:41-49 | the table template opens `{% datasource name="<name>" delimiter="\|" %}` and closes `{% /datasource %}` |
| CreateCommand.QueryLayout | tinybird-cli/src/commands/create/index.ts:50-58 | the query template opens `{% query name="<name>" %}` with body `SELECT * FROM table_name` |
| CreateCommand.ConnectionLayout | tinybird-cli/src/commands/create/index.ts:59-68 | the connection template opens and closes a `connection` tag named by the resource |
| CreateCommand.SecretLayout | tinybird-cli/src/commands/create/index.ts:69-76 | the secret template opens and closes a `secret` tag named by the resource |
| CreateCommand.VariableLayout | tinybird-cli/src/commands/create/index.ts:77-84 | the variable template opens and closes a `variable` tag named by the resource |
| CreateCommand.OpenTagSpelling | tinybird-cli/src/commands/create/index.ts:46 | the opening tag carries the name attribute, and the delimiter attribute only for a table |
| CreateCommand.TagNamedByType | tinybird-cli/src/commands/create/index.ts:63-83 | for connection, secret and variable the opening and closing tag names are the type itself |
| CreateCommand.BodyColumns | tinybird-cli/src/commands/create/index.ts:45-84 | read by the datasource tag with the bar delimiter, the placeholder line of a new table file is one column, `column`/`type`/`expression`/`description`; the bodies of the other types give none |
| CreateCommand.TemplateInjective | tinybird-cli/src/commands/create/index.ts:41-84 | a template determines its type and, for a name without line breaks, its name |
| CreateCommand.FrontmatterInjective | tinybird-cli/src/commands/create/index.ts:41-44 | two frontmatter blocks that start the same text, with names free of line breaks, have the same type and name (through the helper `SameFirstLine`: equal texts with line-break-free first lines have equal first lines) |
| CreateCommand.TypeLetter | tinybird-cli/src/commands/create/index.ts:41-44 | in any text that starts with the frontmatter, every template included, the type is spelled from the eleventh character on |
| CreateCommand.AfterPrefix | tinybird-cli/src/commands/create/index.ts:41-44 | in such a text the name line is the name followed by a line break |
| CreateCommand.SearchUp | tinybird-cli/src/commands/create/index.ts:101-113 | a directory it finds exists and is named `tinybird` |
| CreateCommand.FindTinybirdDir | tinybird-cli/src/commands/create/index.ts:101-113 | the loop returns exactly what the reference search returns |
| CreateCommand.SearchUpFinds | tinybird-cli/src/commands/create/index.ts:101-113 | the search returns `<d>/tinybird` for the ancestor `d` exactly when that child exists and no deeper ancestor has one |
| CreateCommand.SearchUpNone | tinybird-cli/src/commands/create/index.ts:101-113 | the search returns nothing exactly when no ancestor except the root has a `tinybird` child; the root itself is never examined |
| CreateCommand.SearchUpAncestor | tinybird-cli/src/commands/create/index.ts:101-113 | what the search returns is the `tinybird` child of an ancestor other than the root |
| CreateCommand.ProjectDir | tinybird-cli/src/commands/create/index.ts:120-140 | with a non-empty `--dir`, a missing directory is the one error, reported with the resolved path; an existing one is the project directory itself when it is named `tinybird`, and otherwise the search up from it; without `--dir` the result is the search from the working directory; a directory found exists and is named `tinybird` |
| CreateCommand.Plan | tinybird-cli/src/commands/create/index.ts:115-166 | a `--dir` error is passed on; the "no tinybird directory" error occurs exactly when no project directory was found; once a project directory `d` is found: the file is written exactly when `d/<resource dir>` exists and `d/<resource dir>/<name>.tinybird` does not, and it is that file; the missing-resource-directory error occurs exactly when `d/<resource dir>` does not exist; the file-exists error, with file name and resource directory, exactly when both exist; a planned file holds the type's template |
| CreateCommand.PlanTarget | tinybird-cli/src/commands/create/index.ts:120-166 | the file written is `<d>/<resource dir>/<name>.tinybird` for the project directory `d` that `ProjectDir` found, whose last segment is `tinybird`; `d` exists, the resource directory exists, the file did not exist, and the content is the type's template |
| CreateCommand.PlanWithoutDir | tinybird-cli/src/commands/create/index.ts:137-145 | without `--dir`, the "no tinybird directory" error happens exactly when no ancestor of the working directory has a `tinybird` child |

## Left out

- Markdoc itself is taken as given: tokenizing, `transform` with attribute
  resolution (`transformAttributes`, `transformChildren`) and the HTML
  renderer. Its required-attribute checks, attribute type checks and
  unknown-tag handling are not visible in this code. The transforms
  therefore take the resolved attributes and transformed children as inputs.
- The YAML decoder is given as a function from the frontmatter value to a
  decoded value or an error; its grammar is not modelled.
- How Markdoc dispatches the older variant's `config.nodes` entries, and
  how it renders the `Query`/`Table` names they declare, is Markdoc's. Only
  the registry contents are modelled.
- Attribute schemas are kept as data (type, required flag, default). The
  functions a schema carries are named, not stored; each tag's transform is
  modelled as its own member.
- TinybirdMarkdoc.RowOfLine: proved only for a one-character delimiter
  that is not white space. For a longer delimiter, or one that contains
  white space, trimming the line first can change where the delimiter
  occurs; `RowOf`'s own contract still holds there.
- Attributes are maps, so the key order of JavaScript objects is lost:
  `{ class: 'datasource-container', ...attributes }` lists `class` first,
  and a serialiser walking the object would follow that order. The HTML
  serialiser is a parameter here, so nothing in the model depends on it.
- An empty or non-string delimiter is excluded from both column readers.
  `split("")` splits into characters and `split(undefined)` returns the
  whole line.
- Numbers in values are integers. Floating point, `NaN` and exponent
  formatting are not modelled. Markdoc's other scalar child kinds are
  reduced to the value cases listed in `Markdoc.Value`.
- Object children are examined through a `Tag`'s children or an object
  value's `children` array. Other objects with array-like `children`
  properties, and identity and prototype details of JavaScript objects,
  are not distinguished.
- Only typed results are modelled, never the exact English text of the CLI
  error messages and log lines.
- The `--dir` flag's `path.resolve` is a parameter. Windows drive roots and
  UNC paths are not modelled; the root is the single empty path.
- A resource name containing `/` is treated as one file-name segment,
  whereas `path.join` would create nested segments.
- A failure of `writeFileSync` (permissions, disk) is left out. The model
  gives the file to write, not the write.
- oclif argument and flag parsing is left out. The model takes the parsed
  type, name and optional `--dir` value. An empty `--dir` value counts as
  no flag, as JavaScript truthiness gives.
- The `docs`, `auth` and `init` commands are I/O glue and are not part of
  this model. `auth` has its own copy of the directory search; it is the
  same loop.
