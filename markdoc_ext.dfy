/**
 * The Tinybird tag definitions and parser facade of the Markdoc extension
 * package, current source variant: `{% query %}` renders as an SQL code
 * block and `{% datasource %}` turns delimited text lines into a schema table.
 */
module TinybirdMarkdoc {
  import opened Wrappers
  import opened JsStrings
  import opened Markdoc

  // ---------------------------------------------------------------------
  // Tag schemas and the registry
  // ---------------------------------------------------------------------

  const QueryTag: Schema :=
    Schema("pre", map["name" := AttrSpec(StringType, true, None)], TransformOf("query"))

  /** The `delimiter` attribute defaults to a vertical bar. */
  const DatasourceTag: Schema :=
    Schema("div",
      map["name" := AttrSpec(StringType, true, None),
          "delimiter" := AttrSpec(StringType, false, Some(VString("|")))],
      TransformOf("datasource"))

  const BuiltinTags: map<string, Schema> := map["query" := QueryTag, "datasource" := DatasourceTag]

  /**
   * The registry holds the two tags; both require a string `name`, and only
   * `datasource` has a `delimiter`, optional and defaulting to a bar.
   */
  lemma BuiltinTagSchemas()
    ensures BuiltinTags.Keys == {"query", "datasource"}
    ensures BuiltinTags["query"].render == "pre" && BuiltinTags["datasource"].render == "div"
    ensures forall k :: k in BuiltinTags ==>
      ("name" in BuiltinTags[k].attributes && BuiltinTags[k].attributes["name"] == AttrSpec(StringType, true, None))
    ensures BuiltinTags["query"].attributes.Keys == {"name"}
    ensures BuiltinTags["datasource"].attributes.Keys == {"name", "delimiter"}
    ensures BuiltinTags["datasource"].attributes["delimiter"] == AttrSpec(StringType, false, Some(VString("|")))
  {
  }

  // ---------------------------------------------------------------------
  // The query tag
  // ---------------------------------------------------------------------

  /** The class that marks the code element as SQL. */
  const SqlCodeAttributes: map<string, Value> := map["class" := VString("language-sql")]

  /** `tags.query.transform`: a `pre` carrying the resolved attributes around one SQL `code` element. */
  function QueryTransform(attributes: map<string, Value>, children: seq<Node>): (r: Node)
    ensures r.Tag? && r.name == "pre" && r.attributes == attributes
    ensures |r.children| == 1 && r.children[0].Tag? && r.children[0].name == "code"
    ensures r.children[0].attributes == map["class" := VString("language-sql")]
    ensures r.children[0].children == children
  {
    Tag("pre", attributes, [Tag("code", SqlCodeAttributes, children)])
  }

  /** The text a renderable tree shows: its strings, in document order. */
  function TextContent(n: Node): string
    decreases n, 1
  {
    match n
    case Tag(_, _, children) => TextOfChildren(children)
    case Scalar(v) => if v.VString? then v.s else ""
  }

  function TextOfChildren(children: seq<Node>): string
    decreases children, 0
  {
    if children == [] then "" else TextContent(children[0]) + TextOfChildren(children[1..])
  }

  /** The code block shows exactly the text of the tag body; an empty body shows nothing. */
  lemma QueryTextContent(attributes: map<string, Value>, children: seq<Node>)
    ensures TextContent(QueryTransform(attributes, children)) == TextOfChildren(children)
    ensures children == [] ==> TextContent(QueryTransform(attributes, children)) == ""
  {
    var code := Tag("code", SqlCodeAttributes, children);
    assert [code][1..] == [];
    assert TextOfChildren([code]) == TextContent(code) + "";
  }

  // ---------------------------------------------------------------------
  // The datasource tag: column extraction
  // ---------------------------------------------------------------------

  /** One row of a datasource schema. `description` is `None` when the line has fewer than four fields. */
  datatype Column = Column(name: string, columnType: string, path: string, description: Option<string>)

  /** The fields of a line: its pieces between delimiters, each trimmed. */
  function Fields(line: string, delimiter: string): (f: seq<string>)
    requires delimiter != []
    ensures |f| == |Split(line, delimiter)| && |f| >= 1
    ensures forall i :: 0 <= i < |f| ==> f[i] == Trim(Split(line, delimiter)[i]) && IsTrimmed(f[i])
  {
    TrimAll(Split(line, delimiter))
  }

  /**
   * The column a text line describes, if any: the line is trimmed, blank
   * lines are skipped, and the first four fields are name, type, path and
   * description; without a name, type and path there is no column.
   */
  function RowOf(text: string, delimiter: string): (r: Option<Column>)
    requires delimiter != []
    ensures AllWhitespace(text) ==> r.None?
    ensures r.Some? ==> r.value.name != "" && r.value.columnType != "" && r.value.path != ""
    ensures r.Some? ==> IsTrimmed(r.value.name) && IsTrimmed(r.value.columnType) && IsTrimmed(r.value.path)
    ensures r.Some? && r.value.description.Some? ==> IsTrimmed(r.value.description.value)
  {
    var trimmed := Trim(text);
    if trimmed == "" then None
    else
      var f := Fields(trimmed, delimiter);
      if f[0] != "" && |f| > 1 && f[1] != "" && |f| > 2 && f[2] != "" then
        Some(Column(f[0], f[1], f[2], if |f| > 3 then Some(f[3]) else None))
      else None
  }

  /**
   * The array a body child exposes to the extractor: a child counts only when
   * it is an object with an array-valued `children` property.
   */
  function ChildArray(child: Node): (r: Option<seq<Node>>)
    ensures child.Scalar? && !child.value.VObject? ==> r.None?
  {
    match child
    case Tag(_, _, children) => Some(children)
    case Scalar(v) =>
      if v.VObject? && "children" in v.fields && v.fields["children"].VArray? then
        var items := v.fields["children"].items;
        Some(seq(|items|, i requires 0 <= i < |items| => Scalar(items[i])))
      else None
  }

  /** The strings among the items of one child array, in item order. */
  function ItemStrings(items: seq<Node>): seq<string>
    decreases |items|
  {
    if items == [] then [] else ItemStrings(items[..|items| - 1]) + ItemString(items[|items| - 1])
  }

  /** An item is examined only when it is a string. */
  function ItemString(item: Node): seq<string> {
    if item.Scalar? && item.value.VString? then [item.value.s] else []
  }

  /** The strings one body child exposes: none unless it has a `children` array. */
  function ChildItemStrings(child: Node): seq<string> {
    match ChildArray(child)
    case Some(items) => ItemStrings(items)
    case None => []
  }

  /** The strings the extractor examines: those one level inside object children, child after child. */
  function ExaminedStrings(children: seq<Node>): seq<string>
    decreases |children|
  {
    if children == [] then []
    else ExaminedStrings(children[..|children| - 1]) + ChildItemStrings(children[|children| - 1])
  }

  function Keep(r: Option<Column>): seq<Column> {
    match r
    case Some(c) => [c]
    case None => []
  }

  /** The columns of a list of lines under a line parser, in line order, skipping lines without one. */
  function RowsOf(texts: seq<string>, parse: string -> Option<Column>): seq<Column>
    decreases |texts|
  {
    if texts == [] then [] else Keep(parse(texts[0])) + RowsOf(texts[1..], parse)
  }

  /** The line parser of a datasource tag with the given delimiter. */
  function LineParser(delimiter: string): string -> Option<Column>
    requires delimiter != []
  {
    text => RowOf(text, delimiter)
  }

  /**
   * The columns of a datasource body: every examined string, parsed with the
   * tag's delimiter, in the order the strings are examined.
   */
  function ExtractColumns(children: seq<Node>, delimiter: string): (r: seq<Column>)
    requires delimiter != []
    ensures |r| <= |ExaminedStrings(children)|
    ensures forall c :: c in r <==>
      exists i :: 0 <= i < |ExaminedStrings(children)| && RowOf(ExaminedStrings(children)[i], delimiter) == Some(c)
    ensures forall c :: c in r ==> c.name != "" && c.columnType != "" && c.path != ""
  {
    var texts := ExaminedStrings(children);
    RowsOfLength(texts, LineParser(delimiter));
    ParsedRowsMembers(texts, delimiter);
    RowsOf(texts, LineParser(delimiter))
  }

  lemma ParsedRowsMembers(texts: seq<string>, delimiter: string)
    requires delimiter != []
    ensures forall c :: c in RowsOf(texts, LineParser(delimiter)) <==>
      exists i :: 0 <= i < |texts| && RowOf(texts[i], delimiter) == Some(c)
    ensures forall c :: c in RowsOf(texts, LineParser(delimiter)) ==> c.name != "" && c.columnType != "" && c.path != ""
  {
    var parse := LineParser(delimiter);
    forall c ensures c in RowsOf(texts, parse) <==> exists i :: 0 <= i < |texts| && RowOf(texts[i], delimiter) == Some(c) {
      RowsOfMembers(texts, parse, c);
      assert forall i :: 0 <= i < |texts| ==> parse(texts[i]) == RowOf(texts[i], delimiter);
    }
    forall c | c in RowsOf(texts, parse) ensures c.name != "" && c.columnType != "" && c.path != "" {
      var i :| 0 <= i < |texts| && RowOf(texts[i], delimiter) == Some(c);
    }
  }

  lemma {:induction false} RowsOfAppend(a: seq<string>, b: seq<string>, parse: string -> Option<Column>)
    ensures RowsOf(a + b, parse) == RowsOf(a, parse) + RowsOf(b, parse)
    decreases |a|
  {
    if a == [] {
      assert a + b == b;
    } else {
      assert (a + b)[1..] == a[1..] + b;
      RowsOfAppend(a[1..], b, parse);
    }
  }

  lemma RowsOfSingle(text: string, parse: string -> Option<Column>)
    ensures RowsOf([text], parse) == Keep(parse(text))
  {
    assert [text][1..] == [];
  }

  lemma ItemStep(items: seq<Node>, j: nat, parse: string -> Option<Column>)
    requires j < |items|
    ensures RowsOf(ItemStrings(items[..j + 1]), parse) ==
      RowsOf(ItemStrings(items[..j]), parse) + RowsOf(ItemString(items[j]), parse)
  {
    assert items[..j + 1][..j] == items[..j];
    RowsOfAppend(ItemStrings(items[..j]), ItemString(items[j]), parse);
  }

  lemma ChildStep(children: seq<Node>, i: nat, parse: string -> Option<Column>)
    requires i < |children|
    ensures RowsOf(ExaminedStrings(children[..i + 1]), parse) ==
      RowsOf(ExaminedStrings(children[..i]), parse) + RowsOf(ChildItemStrings(children[i]), parse)
  {
    assert children[..i + 1][..i] == children[..i];
    RowsOfAppend(ExaminedStrings(children[..i]), ChildItemStrings(children[i]), parse);
  }

  /** A column is produced exactly when some examined line yields it. */
  lemma {:induction false} RowsOfMembers(texts: seq<string>, parse: string -> Option<Column>, c: Column)
    ensures c in RowsOf(texts, parse) <==> exists i :: 0 <= i < |texts| && parse(texts[i]) == Some(c)
    decreases |texts|
  {
    if texts != [] {
      RowsOfMembers(texts[1..], parse, c);
      if c in RowsOf(texts[1..], parse) {
        var i :| 0 <= i < |texts[1..]| && parse(texts[1..][i]) == Some(c);
        assert parse(texts[i + 1]) == Some(c);
      }
      if exists i :: 0 <= i < |texts| && parse(texts[i]) == Some(c) {
        var i :| 0 <= i < |texts| && parse(texts[i]) == Some(c);
        if i > 0 {
          assert parse(texts[1..][i - 1]) == Some(c);
        }
      }
    }
  }

  /** Every line yields at most one column. */
  lemma {:induction false} RowsOfLength(texts: seq<string>, parse: string -> Option<Column>)
    ensures |RowsOf(texts, parse)| <= |texts|
    ensures (forall i :: 0 <= i < |texts| ==> parse(texts[i]).None?) ==> RowsOf(texts, parse) == []
    decreases |texts|
  {
    if texts != [] {
      RowsOfLength(texts[1..], parse);
      assert forall i :: 1 <= i < |texts| ==> texts[1..][i - 1] == texts[i];
    }
  }

  /** Strings that are blank contribute no column, wherever they stand in the body. */
  lemma BlankStringsGiveNoColumns(children: seq<Node>, delimiter: string)
    requires delimiter != []
    requires forall i :: 0 <= i < |ExaminedStrings(children)| ==> AllWhitespace(ExaminedStrings(children)[i])
    ensures ExtractColumns(children, delimiter) == []
  {
    RowsOfLength(ExaminedStrings(children), LineParser(delimiter));
  }

  /** With a one-character delimiter `c`, a column's line is its fields joined by `c`. */
  function FormatRow(col: Column, c: char): string {
    col.name + [c] + col.columnType + [c] + col.path +
    (match col.description case Some(d) => [c] + d case None => "")
  }

  predicate WellFormedColumn(col: Column, c: char) {
    col.name != "" && col.columnType != "" && col.path != "" &&
    IsTrimmed(col.name) && IsTrimmed(col.columnType) && IsTrimmed(col.path) &&
    c !in col.name && c !in col.columnType && c !in col.path &&
    (col.description.Some? ==> IsTrimmed(col.description.value) && c !in col.description.value)
  }

  /**
   * Writing a column as a delimited line and extracting it again gives the
   * column back, an empty description included.
   */
  lemma RowOfFormatRow(col: Column, c: char)
    requires WellFormedColumn(col, c) && !IsWhitespace(c)
    ensures RowOf(FormatRow(col, c), [c]) == Some(col)
  {
    var parts := ColumnFields(col);
    FormatRowJoin(col, c);
    ColumnFieldsTrimmed(col, c);
    RowOfPieces(parts, c);
    assert Column(parts[0], parts[1], parts[2], if |parts| > 3 then Some(parts[3]) else None) == col;
  }

  /** The fields of a well-formed column are trimmed and free of the delimiter. */
  lemma ColumnFieldsTrimmed(col: Column, c: char)
    requires WellFormedColumn(col, c)
    ensures |ColumnFields(col)| >= 3
    ensures forall i :: 0 <= i < |ColumnFields(col)| ==> c !in ColumnFields(col)[i]
    ensures TrimAll(ColumnFields(col)) == ColumnFields(col)
  {
    var parts := ColumnFields(col);
    assert forall i :: 0 <= i < |parts| ==> IsTrimmed(parts[i]) && c !in parts[i];
    var f := TrimAll(parts);
    assert forall i :: 0 <= i < |parts| ==> f[i] == parts[i];
  }

  /** The fields of a column in line order, the description last when there is one. */
  function ColumnFields(col: Column): seq<string> {
    [col.name, col.columnType, col.path] + (match col.description case Some(d) => [d] case None => [])
  }

  /** A formatted row is its column's fields joined by the delimiter. */
  lemma FormatRowJoin(col: Column, c: char)
    ensures FormatRow(col, c) == Join(ColumnFields(col), [c])
  {
    var parts := ColumnFields(col);
    var sep := [c];
    match col.description {
      case Some(d) =>
        assert parts == [col.name, col.columnType, col.path, d];
        JoinCons(col.path, [d], sep);
        JoinCons(col.columnType, [col.path, d], sep);
        assert [col.columnType] + [col.path, d] == parts[1..];
        JoinCons(col.name, parts[1..], sep);
        assert [col.name] + parts[1..] == parts;
      case None =>
        assert parts == [col.name, col.columnType, col.path];
        JoinCons(col.columnType, [col.path], sep);
        assert [col.columnType] + [col.path] == parts[1..];
        JoinCons(col.name, parts[1..], sep);
        assert [col.name] + parts[1..] == parts;
    }
  }

  /** A line without the delimiter has a single field and so never yields a column. */
  lemma LineWithoutDelimiter(text: string, c: char)
    requires c !in text
    ensures RowOf(text, [c]).None?
  {
    var t := Trim(text);
    assert c !in t;
    SplitNoSeparator(t, c);
  }

  /**
   * For a one-character delimiter that is not white space, the column of any
   * line is read from the trimmed pieces of the line itself: there is one
   * exactly when there are at least three pieces and the first three are not
   * blank, and then its fields are the first four pieces, trimmed; later
   * pieces are ignored.
   */
  lemma RowOfLine(line: string, c: char)
    requires !IsWhitespace(c)
    ensures var f := TrimAll(Split(line, [c])); var r := RowOf(line, [c]);
      (r.Some? <==> |f| >= 3 && f[0] != "" && f[1] != "" && f[2] != "") &&
      (r.Some? ==> r.value == Column(f[0], f[1], f[2], if |f| > 3 then Some(f[3]) else None))
  {
    SplitTrimmedPieces(line, c);
    if AllWhitespace(line) {
      assert c !in line;
      SplitNoSeparator(line, c);
    }
  }

  /**
   * The same for a line given as pieces joined by the delimiter, none of
   * them containing it.
   */
  lemma RowOfPieces(p: seq<string>, c: char)
    requires |p| >= 1 && !IsWhitespace(c)
    requires forall i :: 0 <= i < |p| ==> c !in p[i]
    ensures var f := TrimAll(p); var r := RowOf(Join(p, [c]), [c]);
      (r.Some? <==> |p| >= 3 && f[0] != "" && f[1] != "" && f[2] != "") &&
      (r.Some? ==> r.value == Column(f[0], f[1], f[2], if |p| > 3 then Some(f[3]) else None))
  {
    SplitJoin(p, c);
    RowOfLine(Join(p, [c]), c);
  }

  lemma JoinFive(a: string, b: string, c: string, d: string, e: string)
    ensures Join([a, b, c, d, e], "|") == a + "|" + b + "|" + c + "|" + d + "|" + e
  {
    var p := [a, b, c, d, e];
    assert p[1..] == [b, c, d, e] && p[1..][1..] == [c, d, e];
    assert p[1..][1..][1..] == [d, e] && p[1..][1..][1..][1..] == [e];
    assert Join([d, e], "|") == d + "|" + e;
    assert Join([c, d, e], "|") == c + "|" + (d + "|" + e);
    assert Join([b, c, d, e], "|") == b + "|" + (c + "|" + (d + "|" + e));
  }

  /** A field with one space on each side. */
  function Padded(x: string): string {
    " " + x + " "
  }

  /** A padded field trims back to itself. */
  lemma PaddedField(x: string)
    requires IsTrimmed(x)
    ensures Trim(Padded(x)) == x
  {
    TrimAround(" ", x, " ");
  }

  /**
   * A line of five padded fields: the padding is dropped, and so is the
   * fifth field.
   */
  lemma PaddedRow(n: string, t: string, p: string, d: string, e: string)
    requires n != "" && t != "" && p != ""
    requires IsTrimmed(n) && IsTrimmed(t) && IsTrimmed(p) && IsTrimmed(d)
    requires '|' !in n && '|' !in t && '|' !in p && '|' !in d && '|' !in e
    ensures RowOf(Padded(n) + "|" + Padded(t) + "|" + Padded(p) + "|" + Padded(d) + "|" + Padded(e), "|") ==
      Some(Column(n, t, p, Some(d)))
  {
    var pieces := [Padded(n), Padded(t), Padded(p), Padded(d), Padded(e)];
    JoinFive(Padded(n), Padded(t), Padded(p), Padded(d), Padded(e));
    assert forall i :: 0 <= i < |pieces| ==> '|' !in pieces[i];
    RowOfPieces(pieces, '|');
    PaddedField(n);
    PaddedField(t);
    PaddedField(p);
    PaddedField(d);
    var f := TrimAll(pieces);
    assert f[0] == n && f[1] == t && f[2] == p && f[3] == d;
  }

  /**
   * Example schema lines, written as their fields and bars: a full row
   * `id|Int32|/id|desc`, a row `bad|Int32` short of its path, and the two rows
   * `id|Int32|/id|identifier` and `name|String|/name|` of one table.
   */
  const GoodLine: string := "id" + "|" + "Int32" + "|" + "/id" + ("|" + "desc")
  const ShortLine: string := "bad" + "|" + "Int32"
  const IdLine: string := "id" + "|" + "Int32" + "|" + "/id" + ("|" + "identifier")
  const NameLine: string := "name" + "|" + "String" + "|" + "/name" + ("|" + "")

  /** A line with only a name and a type yields no column. */
  lemma ShortRowDropped()
    ensures RowOf(ShortLine, "|") == None
  {
    var pieces := ["bad", "Int32"];
    assert Join(pieces, "|") == ShortLine by {
      JoinCons("bad", ["Int32"], "|");
    }
    RowOfPieces(pieces, '|');
  }

  /** A short row and a blank line are dropped; the well-formed row survives with its description. */
  lemma MalformedRowsDropped()
    ensures ExtractColumns([Tag("p", map[], [Text(GoodLine), Text(""), Text(ShortLine)])], "|")
      == [Column("id", "Int32", "/id", Some("desc"))]
  {
    var column := Column("id", "Int32", "/id", Some("desc"));
    assert WellFormedColumn(column, '|');
    assert FormatRow(column, '|') == GoodLine;
    RowOfFormatRow(column, '|');
    assert AllWhitespace("");
    ShortRowDropped();
    ParagraphStrings(GoodLine, "", ShortLine);
    RowsOfFirstOfThree([GoodLine, "", ShortLine], LineParser("|"), column);
  }

  /**
   * Two well-formed lines give two columns, the second with an empty (not
   * missing) description, and the table gets one body row for each.
   */
  lemma TwoRowSchema(attributes: map<string, Value>)
    ensures var columns := ExtractColumns([Tag("p", map[], [Text(IdLine), Text(NameLine)])], "|");
      columns == [Column("id", "Int32", "/id", Some("identifier")), Column("name", "String", "/name", Some(""))] &&
      |DatasourceContainer(attributes, columns).children[0].children[1].children| == 2
  {
    var c1 := Column("id", "Int32", "/id", Some("identifier"));
    var c2 := Column("name", "String", "/name", Some(""));
    assert WellFormedColumn(c1, '|') && WellFormedColumn(c2, '|');
    assert FormatRow(c1, '|') == IdLine && FormatRow(c2, '|') == NameLine;
    RowOfFormatRow(c1, '|');
    RowOfFormatRow(c2, '|');
    TwoParagraphStrings(IdLine, NameLine);
    RowsOfTwo([IdLine, NameLine], LineParser("|"), c1, c2);
  }

  lemma TwoParagraphStrings(a: string, b: string)
    ensures ExaminedStrings([Tag("p", map[], [Text(a), Text(b)])]) == [a, b]
  {
    var items := [Text(a), Text(b)];
    assert items[..1][..0] == [] && items[..2] == items;
    assert ItemStrings(items[..1]) == [a];
    var p := Tag("p", map[], items);
    assert [p][..0] == [];
  }

  lemma RowsOfTwo(texts: seq<string>, parse: string -> Option<Column>, c1: Column, c2: Column)
    requires |texts| == 2 && parse(texts[0]) == Some(c1) && parse(texts[1]) == Some(c2)
    ensures RowsOf(texts, parse) == [c1, c2]
  {
    assert texts[1..][1..] == [];
    assert RowsOf(texts[1..], parse) == [c2];
  }

  lemma ParagraphStrings(a: string, b: string, c: string)
    ensures ExaminedStrings([Tag("p", map[], [Text(a), Text(b), Text(c)])]) == [a, b, c]
  {
    var items := [Text(a), Text(b), Text(c)];
    assert items[..2][..1] == items[..1] && items[..1][..0] == [] && items[..3] == items;
    assert ItemStrings(items[..1]) == [a];
    assert ItemStrings(items[..2]) == [a, b];
    assert ItemStrings(items) == [a, b, c];
    var p := Tag("p", map[], items);
    assert [p][..0] == [];
  }

  lemma RowsOfFirstOfThree(texts: seq<string>, parse: string -> Option<Column>, column: Column)
    requires |texts| == 3 && parse(texts[0]) == Some(column)
    requires parse(texts[1]).None? && parse(texts[2]).None?
    ensures RowsOf(texts, parse) == [column]
  {
    assert texts[1..][1..][1..] == [];
    assert RowsOf(texts[1..][1..], parse) == [];
  }

  /** With the default delimiter, a bar-separated line gives its four fields. */
  lemma BarDelimitedRow()
    ensures RowOf("id|Int32|/id|x", "|") == Some(Column("id", "Int32", "/id", Some("x")))
  {
    var col := Column("id", "Int32", "/id", Some("x"));
    assert WellFormedColumn(col, '|');
    assert FormatRow(col, '|') == "id|Int32|/id|x";
    RowOfFormatRow(col, '|');
  }

  /** With `delimiter=","`, the comma-separated line gives the same column as the bar-separated one. */
  lemma CommaDelimitedRow()
    ensures RowOf("id,Int32,/id,x", ",") == Some(Column("id", "Int32", "/id", Some("x")))
  {
    var col := Column("id", "Int32", "/id", Some("x"));
    assert WellFormedColumn(col, ',');
    assert FormatRow(col, ',') == "id,Int32,/id,x";
    RowOfFormatRow(col, ',');
  }

  // ---------------------------------------------------------------------
  // The datasource tag: table construction
  // ---------------------------------------------------------------------

  function Cell(element: string, content: Value): Node {
    Tag(element, map[], [Scalar(content)])
  }

  /** The fixed header row. */
  const TableHeader: Node :=
    Tag("thead", map[], [Tag("tr", map[], [
      Cell("th", VString("Name")), Cell("th", VString("Type")),
      Cell("th", VString("Path")), Cell("th", VString("Description"))])])

  /** A missing description becomes an `undefined` cell child. */
  function DescriptionValue(d: Option<string>): Value {
    match d
    case Some(s) => VString(s)
    case None => VUndefined
  }

  /** A body row: four cells in schema order, which read back as the column. */
  function ColumnRow(col: Column): (r: Node)
    ensures r.Tag? && r.name == "tr" && r.attributes == map[] && |r.children| == 4
    ensures forall i :: 0 <= i < 4 ==> IsDataCell(r.children[i])
    ensures RowColumn(r) == Some(col)
  {
    Tag("tr", map[], [
      Cell("td", VString(col.name)), Cell("td", VString(col.columnType)),
      Cell("td", VString(col.path)), Cell("td", DescriptionValue(col.description))])
  }

  function TableBody(columns: seq<Column>): (r: Node)
    ensures r.Tag? && r.name == "tbody" && |r.children| == |columns|
    ensures forall i :: 0 <= i < |columns| ==> r.children[i] == ColumnRow(columns[i])
  {
    Tag("tbody", map[], seq(|columns|, i requires 0 <= i < |columns| => ColumnRow(columns[i])))
  }

  /**
   * The schema table: class `datasource-table`, the fixed header, then a
   * body whose rows read back as exactly the columns, in order.
   */
  function DatasourceTable(columns: seq<Column>): (r: Node)
    ensures r.Tag? && r.name == "table" && r.attributes == map["class" := VString("datasource-table")]
    ensures |r.children| == 2 && r.children[0] == TableHeader
    ensures r.children[1].Tag? && r.children[1].name == "tbody" && |r.children[1].children| == |columns|
    ensures RowsColumns(r.children[1].children) == Some(columns)
  {
    RowsColumnsOfRows(columns);
    Tag("table", map["class" := VString("datasource-table")], [TableHeader, TableBody(columns)])
  }

  /**
   * The container: a `div` with every resolved attribute, and class
   * `datasource-container` unless a resolved `class` overrides it, holding
   * only the schema table.
   */
  function DatasourceContainer(attributes: map<string, Value>, columns: seq<Column>): (r: Node)
    ensures r.Tag? && r.name == "div" && r.children == [DatasourceTable(columns)]
    ensures r.attributes.Keys == attributes.Keys + {"class"}
    ensures forall k :: k in attributes ==> r.attributes[k] == attributes[k]
    ensures "class" !in attributes ==> r.attributes["class"] == VString("datasource-container")
  {
    Tag("div", map["class" := VString("datasource-container")] + attributes, [DatasourceTable(columns)])
  }

  /** The header has one cell per field of a body row, labelled in schema order. */
  lemma TableHeaderLabels(col: Column)
    ensures TableHeader.Tag? && TableHeader.name == "thead" && |TableHeader.children| == 1
    ensures var row := TableHeader.children[0];
      row.Tag? && row.name == "tr" && |row.children| == |ColumnRow(col).children| &&
      forall i :: 0 <= i < |row.children| ==>
        row.children[i] == Cell("th", VString(["Name", "Type", "Path", "Description"][i]))
  {
  }

  /** A `td` cell without attributes holding one scalar child. */
  predicate IsDataCell(cell: Node) {
    cell.Tag? && cell.name == "td" && cell.attributes == map[] &&
    |cell.children| == 1 && cell.children[0].Scalar?
  }

  /** Reading a body row back as a column; `None` for anything `ColumnRow` cannot produce. */
  function RowColumn(row: Node): Option<Column> {
    if row.Tag? && row.name == "tr" && row.attributes == map[] && |row.children| == 4 &&
       (forall i :: 0 <= i < 4 ==> IsDataCell(row.children[i])) &&
       row.children[0].children[0].value.VString? &&
       row.children[1].children[0].value.VString? &&
       row.children[2].children[0].value.VString?
    then
      var d := row.children[3].children[0].value;
      Some(Column(row.children[0].children[0].value.s, row.children[1].children[0].value.s,
                  row.children[2].children[0].value.s,
                  if d.VString? then Some(d.s) else None))
    else None
  }

  function RowsColumns(rows: seq<Node>): Option<seq<Column>>
    decreases |rows|
  {
    if rows == [] then Some([])
    else
      match (RowColumn(rows[0]), RowsColumns(rows[1..]))
      case (Some(c), Some(cs)) => Some([c] + cs)
      case _ => None
  }

  lemma {:induction false} RowsColumnsOfRows(columns: seq<Column>)
    ensures RowsColumns(seq(|columns|, i requires 0 <= i < |columns| => ColumnRow(columns[i]))) == Some(columns)
    decreases |columns|
  {
    var rows := seq(|columns|, i requires 0 <= i < |columns| => ColumnRow(columns[i]));
    if columns != [] {
      var tail := columns[1..];
      assert rows[1..] == seq(|tail|, i requires 0 <= i < |tail| => ColumnRow(tail[i]));
      RowsColumnsOfRows(tail);
      assert RowColumn(rows[0]) == Some(columns[0]);
      assert [columns[0]] + tail == columns;
    }
  }

  // ---------------------------------------------------------------------
  // The datasource tag: the transform
  // ---------------------------------------------------------------------

  /** One item contributes the column of its string, if that string has one. */
  lemma ItemContribution(item: Node, delimiter: string)
    requires delimiter != []
    ensures RowsOf(ItemString(item), LineParser(delimiter)) ==
      if item.Scalar? && item.value.VString? then Keep(RowOf(item.value.s, delimiter)) else []
  {
    if item.Scalar? && item.value.VString? {
      RowsOfSingle(item.value.s, LineParser(delimiter));
    }
  }

  /**
   * The inner loop of `tags.datasource.transform`: over the items of one
   * child array, pushing the column of every string item that has one.
   */
  method CollectItemColumns(items: seq<Node>, delimiter: string) returns (columns: seq<Column>)
    requires delimiter != []
    ensures columns == RowsOf(ItemStrings(items), LineParser(delimiter))
  {
    ghost var parse := LineParser(delimiter);
    columns := [];
    var j := 0;
    while j < |items|
      invariant 0 <= j <= |items|
      invariant columns == RowsOf(ItemStrings(items[..j]), parse)
    {
      var item := items[j];
      if item.Scalar? && item.value.VString? {
        match RowOf(item.value.s, delimiter) {
          case Some(column) => columns := columns + [column];
          case None =>
        }
      }
      ItemContribution(item, delimiter);
      ItemStep(items, j, parse);
      j := j + 1;
    }
    assert items[..j] == items;
  }

  /**
   * The outer loop of `tags.datasource.transform`: over the body's children,
   * descending only into those that expose a `children` array.
   */
  method CollectColumns(children: seq<Node>, delimiter: string) returns (columns: seq<Column>)
    requires delimiter != []
    ensures columns == ExtractColumns(children, delimiter)
  {
    ghost var parse := LineParser(delimiter);
    columns := [];
    var i := 0;
    while i < |children|
      invariant 0 <= i <= |children|
      invariant columns == RowsOf(ExaminedStrings(children[..i]), parse)
    {
      var found := ChildColumns(children[i], delimiter);
      columns := columns + found;
      ChildStep(children, i, parse);
      i := i + 1;
    }
    assert children[..i] == children;
  }

  /** One step of the outer loop: a child without a `children` array contributes nothing. */
  method ChildColumns(child: Node, delimiter: string) returns (found: seq<Column>)
    requires delimiter != []
    ensures found == RowsOf(ChildItemStrings(child), LineParser(delimiter))
  {
    match ChildArray(child) {
      case Some(items) =>
        found := CollectItemColumns(items, delimiter);
      case None =>
        found := [];
    }
  }

  /** `tags.datasource.transform`: the collected columns, laid out as the schema table. */
  method DatasourceTransform(attributes: map<string, Value>, children: seq<Node>) returns (r: Node)
    requires HasDelimiter(attributes)
    ensures r == DatasourceContainer(attributes, ExtractColumns(children, attributes["delimiter"].s))
  {
    var columns := CollectColumns(children, attributes["delimiter"].s);
    r := DatasourceContainer(attributes, columns);
  }

  // ---------------------------------------------------------------------
  // The parser facade
  // ---------------------------------------------------------------------

  /** Constructor options; an absent entry is the empty map or the empty configuration. */
  datatype Options = Options(tags: map<string, Schema>, config: Config)

  /** A `TinybirdParser`: its configuration is fixed at construction. */
  datatype Parser = Parser(config: Config)

  /**
   * The constructor: the caller's configuration, with `tags` replaced by the
   * built-in tags overlaid by the caller's tags (a caller tag wins).
   */
  function NewParser(options: Options): (p: Parser)
    ensures p.config.tags.Keys == BuiltinTags.Keys + options.tags.Keys
    ensures forall k :: k in options.tags ==> p.config.tags[k] == options.tags[k]
    ensures forall k :: k in BuiltinTags && k !in options.tags ==> p.config.tags[k] == BuiltinTags[k]
    ensures p.config.nodes == options.config.nodes && p.config.rest == options.config.rest
  {
    Parser(Config(BuiltinTags + options.tags, options.config.nodes, options.config.rest))
  }

  /** The default export: a parser built without options. */
  const DefaultParser: Parser := NewParser(Options(map[], EmptyConfig))

  /** The default parser knows exactly the two built-in tags and nothing else. */
  lemma DefaultParserConfig()
    ensures DefaultParser.config == Config(BuiltinTags, map[], map[])
  {
    assert BuiltinTags + map[] == BuiltinTags;
  }

  function Parse(engine: Engine, content: string): AstNode {
    engine.parse(content)
  }

  function Transform(p: Parser, engine: Engine, ast: AstNode): Node {
    engine.transform(ast, p.config)
  }

  /** `renderHtml`: parse, transform with the parser's configuration, serialise. */
  function RenderHtml(p: Parser, engine: Engine, content: string): (r: string)
    ensures r == engine.html(engine.transform(engine.parse(content), p.config))
  {
    engine.html(Transform(p, engine, Parse(engine, content)))
  }

  datatype ParsedFile = ParsedFile(frontmatter: Value, content: Node)

  /**
   * `parseFile`: the decoded frontmatter (`{}` when there is none) and the
   * transformed tree; a frontmatter the YAML decoder rejects is an error.
   */
  function ParseFile(p: Parser, engine: Engine, content: string): (r: Result<ParsedFile, string>)
    ensures var fm := FrontmatterAttribute(Parse(engine, content));
      (!Truthy(fm) ==> r == Success(ParsedFile(EmptyObject, Transform(p, engine, Parse(engine, content))))) &&
      (Truthy(fm) ==> (r.Failure? <==> engine.yaml(fm).Failure?)) &&
      (Truthy(fm) && r.Failure? ==> r.error == engine.yaml(fm).error) &&
      (Truthy(fm) && r.Success? ==> r.value.frontmatter == engine.yaml(fm).value)
    ensures r.Success? ==> r.value.content == Transform(p, engine, Parse(engine, content))
  {
    var ast := Parse(engine, content);
    var fm := FrontmatterAttribute(ast);
    if Truthy(fm) then
      match engine.yaml(fm)
      case Failure(e) => Failure(e)
      case Success(v) => Success(ParsedFile(v, Transform(p, engine, ast)))
    else Success(ParsedFile(EmptyObject, Transform(p, engine, ast)))
  }

  /** The tree `parseFile` returns serialises to what `renderHtml` gives for the same text. */
  lemma ParseFileAgreesWithRenderHtml(p: Parser, engine: Engine, content: string)
    ensures var r := ParseFile(p, engine, content);
      r.Success? ==> engine.html(r.value.content) == RenderHtml(p, engine, content)
  {
  }
}
