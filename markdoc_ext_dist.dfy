/**
 * The Tinybird Markdoc extension as built into its distributed JavaScript,
 * an older variant: `query` and `table` are registered as node schemas, the
 * transforms return the AST node with extra attributes (`sql`, `columns`)
 * instead of building HTML-shaped tags, and `parseFile` returns HTML text.
 */
module TinybirdMarkdocDist {
  import opened Wrappers
  import opened JsStrings
  import opened Markdoc

  const QueryNode: Schema :=
    Schema("Query", map["name" := AttrSpec(StringType, true, None)], TransformOf("queryNode"))

  /** The `delimiter` attribute defaults to a vertical bar. */
  const TableNode: Schema :=
    Schema("Table",
      map["name" := AttrSpec(StringType, true, None),
          "delimiter" := AttrSpec(StringType, false, Some(VString("|")))],
      TransformOf("tableNode"))

  const LineBreak: string := "\n"

  /**
   * Both node schemas require a string `name`; only `table` has a
   * `delimiter`, optional and defaulting to a bar.
   */
  lemma NodeSchemas()
    ensures QueryNode.render == "Query" && TableNode.render == "Table"
    ensures QueryNode.attributes.Keys == {"name"} && TableNode.attributes.Keys == {"name", "delimiter"}
    ensures QueryNode.attributes["name"] == AttrSpec(StringType, true, None)
    ensures TableNode.attributes["name"] == AttrSpec(StringType, true, None)
    ensures TableNode.attributes["delimiter"] == AttrSpec(StringType, false, Some(VString("|")))
  {
  }

  // ---------------------------------------------------------------------
  // queryNode
  // ---------------------------------------------------------------------

  /**
   * `queryNode.transform`: the same AST node, its attributes replaced by the
   * resolved attributes plus `sql`, the children joined by line breaks.
   */
  function QueryNodeTransform(node: AstNode, attributes: map<string, Value>, children: seq<Node>): (r: AstNode)
    ensures r.nodeType == node.nodeType && r.tag == node.tag && r.children == node.children && r.other == node.other
    ensures r.attributes.Keys == attributes.Keys + {"sql"}
    ensures forall k :: k in attributes && k != "sql" ==> r.attributes[k] == attributes[k]
    ensures r.attributes["sql"] == VString(JoinChildren(children, LineBreak))
  {
    node.(attributes := attributes["sql" := VString(JoinChildren(children, LineBreak))])
  }

  /**
   * The `sql` text holds each child on its own line: splitting it at line
   * breaks gives back the children's strings, when none of them contains a
   * line break; an empty body gives the empty string.
   */
  lemma SqlLines(node: AstNode, attributes: map<string, Value>, children: seq<Node>)
    requires forall i :: 0 <= i < |children| ==> '\n' !in NodeToJoinString(children[i])
    ensures var sql := QueryNodeTransform(node, attributes, children).attributes["sql"].s;
      (children == [] ==> sql == "") &&
      (children != [] ==> Split(sql, LineBreak) == ChildStrings(children))
  {
    if children != [] {
      SplitJoin(ChildStrings(children), '\n');
    }
  }

  // ---------------------------------------------------------------------
  // tableNode
  // ---------------------------------------------------------------------

  /**
   * A column of the older variant: missing fields stay `undefined`, and the
   * name is always present because a split has at least one piece.
   */
  datatype Column = Column(name: string, columnType: Option<string>, path: Option<string>, description: Option<string>)

  function Piece(fields: seq<string>, i: nat): (r: Option<string>)
    ensures r.Some? <==> i < |fields|
    ensures r.Some? ==> r.value == fields[i]
  {
    if i < |fields| then Some(fields[i]) else None
  }

  /** One line's column: the first four pieces of the (untrimmed) line, each trimmed. */
  function LineColumn(line: string, delimiter: string): (c: Column)
    requires delimiter != []
    ensures var f := TrimAll(Split(line, delimiter));
      c.name == f[0] && c.columnType == Piece(f, 1) && c.path == Piece(f, 2) && c.description == Piece(f, 3)
    ensures IsTrimmed(c.name)
  {
    var f := TrimAll(Split(line, delimiter));
    Column(f[0], Piece(f, 1), Piece(f, 2), Piece(f, 3))
  }

  /**
   * `lines.filter(line => line.trim())`: a trimmed line is truthy when it is
   * not empty, that is when the line is not all whitespace (see `Trim`).
   */
  function NonBlank(lines: seq<string>): (r: seq<string>)
    ensures |r| <= |lines|
    ensures forall i :: 0 <= i < |r| ==> Trim(r[i]) != ""
    decreases |lines|
  {
    if lines == [] then []
    else (if !AllWhitespace(lines[0]) then [lines[0]] else []) + NonBlank(lines[1..])
  }

  /** The lines of the body: the children joined by line breaks, split at line breaks. */
  function SchemaLines(children: seq<Node>): (r: seq<string>)
    ensures |r| >= 1
  {
    Split(JoinChildren(children, LineBreak), LineBreak)
  }

  /** The columns of a body: one per non-blank line, in line order, short lines included. */
  function TableColumns(children: seq<Node>, delimiter: string): (r: seq<Column>)
    requires delimiter != []
    ensures var lines := NonBlank(SchemaLines(children));
      |r| == |lines| && forall i :: 0 <= i < |lines| ==> r[i] == LineColumn(lines[i], delimiter)
  {
    var lines := NonBlank(SchemaLines(children));
    seq(|lines|, i requires 0 <= i < |lines| => LineColumn(lines[i], delimiter))
  }

  function OptionalValue(o: Option<string>): Value {
    match o
    case Some(s) => VString(s)
    case None => VUndefined
  }

  /** A column as the object literal `{ name, type, path, description }`. */
  function ColumnValue(c: Column): (v: Value)
    ensures ColumnOfValue(v) == Some(c)
  {
    VObject(map["name" := VString(c.name), "type" := OptionalValue(c.columnType),
                "path" := OptionalValue(c.path), "description" := OptionalValue(c.description)])
  }

  function ColumnsValue(columns: seq<Column>): (v: Value)
    ensures v.VArray? && |v.items| == |columns|
    ensures forall i :: 0 <= i < |columns| ==> ColumnOfValue(v.items[i]) == Some(columns[i])
  {
    VArray(seq(|columns|, i requires 0 <= i < |columns| => ColumnValue(columns[i])))
  }

  /**
   * `tableNode.transform`: the same AST node, its attributes replaced by the
   * resolved attributes plus `columns`.
   */
  function TableNodeTransform(node: AstNode, attributes: map<string, Value>, children: seq<Node>): (r: AstNode)
    requires HasDelimiter(attributes)
    ensures r.nodeType == node.nodeType && r.tag == node.tag && r.children == node.children && r.other == node.other
    ensures r.attributes.Keys == attributes.Keys + {"columns"}
    ensures forall k :: k in attributes && k != "columns" ==> r.attributes[k] == attributes[k]
    ensures r.attributes["columns"] == ColumnsValue(TableColumns(children, attributes["delimiter"].s))
  {
    node.(attributes := attributes["columns" := ColumnsValue(TableColumns(children, attributes["delimiter"].s))])
  }

  // Reading the `columns` attribute back.

  function ValueOption(v: Value): Option<string> {
    if v.VString? then Some(v.s) else None
  }

  function ColumnOfValue(v: Value): Option<Column> {
    if v.VObject? && "name" in v.fields && v.fields["name"].VString? &&
       "type" in v.fields && "path" in v.fields && "description" in v.fields
    then Some(Column(v.fields["name"].s, ValueOption(v.fields["type"]),
                     ValueOption(v.fields["path"]), ValueOption(v.fields["description"])))
    else None
  }

  function ColumnsOfValues(items: seq<Value>): Option<seq<Column>>
    decreases |items|
  {
    if items == [] then Some([])
    else
      match (ColumnOfValue(items[0]), ColumnsOfValues(items[1..]))
      case (Some(c), Some(cs)) => Some([c] + cs)
      case _ => None
  }

  /** The `columns` attribute holds exactly the columns, in order, and can be read back. */
  lemma {:induction false} ColumnsValueRoundTrip(columns: seq<Column>)
    ensures ColumnsValue(columns).VArray? && ColumnsOfValues(ColumnsValue(columns).items) == Some(columns)
    decreases |columns|
  {
    if columns != [] {
      var tail := columns[1..];
      assert ColumnsValue(columns).items[1..] == ColumnsValue(tail).items;
      ColumnsValueRoundTrip(tail);
      assert ColumnOfValue(ColumnValue(columns[0])) == Some(columns[0]) by {
        var c := columns[0];
        match c.columnType { case Some(_) => case None => }
        match c.path { case Some(_) => case None => }
        match c.description { case Some(_) => case None => }
      }
      assert [columns[0]] + tail == columns;
    }
  }

  /** Filtering keeps exactly the non-blank lines. */
  lemma {:induction false} NonBlankMembers(lines: seq<string>, line: string)
    ensures line in NonBlank(lines) <==> line in lines && Trim(line) != ""
    decreases |lines|
  {
    if lines != [] {
      NonBlankMembers(lines[1..], line);
      assert lines == [lines[0]] + lines[1..];
    }
  }

  /** Filtering preserves line order: it distributes over concatenation. */
  lemma {:induction false} NonBlankAppend(a: seq<string>, b: seq<string>)
    ensures NonBlank(a + b) == NonBlank(a) + NonBlank(b)
    decreases |a|
  {
    if a == [] {
      assert a + b == b;
    } else {
      assert (a + b)[1..] == a[1..] + b;
      NonBlankAppend(a[1..], b);
    }
  }

  /** No line that has content is dropped. */
  lemma {:induction false} NonBlankKeepsContent(lines: seq<string>)
    requires forall i :: 0 <= i < |lines| ==> Trim(lines[i]) != ""
    ensures NonBlank(lines) == lines
    decreases |lines|
  {
    if lines != [] {
      NonBlankKeepsContent(lines[1..]);
      assert [lines[0]] + lines[1..] == lines;
    }
  }

  /**
   * When no child's text holds a line break, the lines are the children's
   * strings, so there is one column per child whose text is not blank.
   */
  lemma LinesAreChildren(children: seq<Node>, delimiter: string)
    requires delimiter != [] && children != []
    requires forall i :: 0 <= i < |children| ==> '\n' !in NodeToJoinString(children[i])
    ensures SchemaLines(children) == ChildStrings(children)
    ensures TableColumns(children, delimiter) ==
      var lines := NonBlank(ChildStrings(children));
      seq(|lines|, i requires 0 <= i < |lines| => LineColumn(lines[i], delimiter))
  {
    SplitJoin(ChildStrings(children), '\n');
  }

  /** A line that is its pieces joined by a one-character delimiter gives those pieces, trimmed. */
  lemma LineColumnOfPieces(pieces: seq<string>, c: char)
    requires |pieces| >= 1 && forall i :: 0 <= i < |pieces| ==> c !in pieces[i]
    ensures var f := TrimAll(pieces); var col := LineColumn(Join(pieces, [c]), [c]);
      col.name == f[0] && col.columnType == Piece(f, 1) && col.path == Piece(f, 2) && col.description == Piece(f, 3)
  {
    SplitJoin(pieces, c);
  }

  /** Pieces that are already trimmed come back unchanged. */
  lemma LineColumnOfTrimmedPieces(pieces: seq<string>, c: char)
    requires |pieces| >= 1 && forall i :: 0 <= i < |pieces| ==> c !in pieces[i] && IsTrimmed(pieces[i])
    ensures var col := LineColumn(Join(pieces, [c]), [c]);
      col.name == pieces[0] && col.columnType == Piece(pieces, 1) &&
      col.path == Piece(pieces, 2) && col.description == Piece(pieces, 3)
  {
    LineColumnOfPieces(pieces, c);
    assert TrimAll(pieces) == pieces;
  }

  /**
   * Unlike the current variant, a short line is kept: on the body
   * `id|Int32|/id|desc`, a blank line, `bad|Int32` (three text children,
   * joined by line breaks), there are two columns and the second has no path or
   * description.
   */
  lemma ShortRowsKept()
    ensures TableColumns([Text(GoodLine), Text(""), Text(ShortLine)], "|") ==
      [Column("id", Some("Int32"), Some("/id"), Some("desc")), Column("bad", Some("Int32"), None, None)]
  {
    assert !AllWhitespace(GoodLine) by { assert !IsWhitespace(GoodLine[0]); }
    assert !AllWhitespace(ShortLine) by { assert !IsWhitespace(ShortLine[0]); }
    ThreeLineBody(GoodLine, ShortLine, "|");
    FullColumn();
    ShortColumn();
  }

  /** A body of two lines with content around a blank one gives two columns. */
  lemma ThreeLineBody(a: string, b: string, delimiter: string)
    requires delimiter != [] && '\n' !in a && '\n' !in b && !AllWhitespace(a) && !AllWhitespace(b)
    ensures TableColumns([Text(a), Text(""), Text(b)], delimiter) ==
      [LineColumn(a, delimiter), LineColumn(b, delimiter)]
  {
    var children := [Text(a), Text(""), Text(b)];
    assert SchemaLines(children) == [a, "", b] by {
      TextJoinString(a);
      TextJoinString("");
      TextJoinString(b);
      LinesAreChildren(children, delimiter);
      assert ChildStrings(children) == [a, "", b];
    }
    NonBlankOfExample([a, "", b]);
    TwoLineColumns(children, delimiter, a, b);
  }

  lemma TwoLineColumns(children: seq<Node>, delimiter: string, a: string, b: string)
    requires delimiter != [] && NonBlank(SchemaLines(children)) == [a, b]
    ensures TableColumns(children, delimiter) == [LineColumn(a, delimiter), LineColumn(b, delimiter)]
  {
    var r := TableColumns(children, delimiter);
    var lines := NonBlank(SchemaLines(children));
    assert |r| == 2 && r[0] == LineColumn(lines[0], delimiter) && r[1] == LineColumn(lines[1], delimiter);
    PairOf(r, LineColumn(a, delimiter), LineColumn(b, delimiter));
  }

  lemma PairOf(r: seq<Column>, x: Column, y: Column)
    requires |r| == 2 && r[0] == x && r[1] == y
    ensures r == [x, y]
  {
  }

  lemma NonBlankOfExample(lines: seq<string>)
    requires |lines| == 3 && !AllWhitespace(lines[0]) && lines[1] == "" && !AllWhitespace(lines[2])
    ensures NonBlank(lines) == [lines[0], lines[2]]
  {
    assert lines[1..][1..][1..] == [];
    assert NonBlank(lines[1..][1..]) == [lines[2]];
  }

  /**
   * Example schema lines, written as their fields and bars: a full row
   * `id|Int32|/id|desc` and a row `bad|Int32` short of its path.
   */
  const GoodLine: string := "id" + "|" + ("Int32" + "|" + ("/id" + "|" + "desc"))
  const ShortLine: string := "bad" + "|" + "Int32"

  /** Four fields fill all four properties. */
  lemma FullColumn()
    ensures LineColumn(GoodLine, "|") == Column("id", Some("Int32"), Some("/id"), Some("desc"))
  {
    var pieces := ["id", "Int32", "/id", "desc"];
    assert Join(pieces, "|") == GoodLine by {
      JoinCons("/id", ["desc"], "|");
      JoinCons("Int32", ["/id", "desc"], "|");
      assert ["Int32"] + ["/id", "desc"] == pieces[1..];
      JoinCons("id", pieces[1..], "|");
      assert ["id"] + pieces[1..] == pieces;
    }
    LineColumnOfTrimmedPieces(pieces, '|');
  }

  /** Two fields leave the path and the description `undefined`. */
  lemma ShortColumn()
    ensures LineColumn(ShortLine, "|") == Column("bad", Some("Int32"), None, None)
  {
    var pieces := ["bad", "Int32"];
    assert Join(pieces, "|") == ShortLine by {
      JoinCons("bad", ["Int32"], "|");
    }
    LineColumnOfTrimmedPieces(pieces, '|');
  }

  // ---------------------------------------------------------------------
  // The parser facade
  // ---------------------------------------------------------------------

  /** Constructor options; an absent entry is the empty map or the empty configuration. */
  datatype Options = Options(nodes: map<string, Schema>, config: Config)

  datatype Parser = Parser(config: Config)

  /**
   * The constructor: the caller's configuration, with `nodes` replaced by
   * Markdoc's built-in nodes, then `query` and `table`, then the caller's
   * nodes, each later entry winning.
   */
  function NewParser(engine: Engine, options: Options): (p: Parser)
    ensures p.config.nodes.Keys == engine.nodes.Keys + {"query", "table"} + options.nodes.Keys
    ensures forall k :: k in options.nodes ==> p.config.nodes[k] == options.nodes[k]
    ensures "query" !in options.nodes ==> p.config.nodes["query"] == QueryNode
    ensures "table" !in options.nodes ==> p.config.nodes["table"] == TableNode
    ensures forall k :: k in engine.nodes && k !in options.nodes && k != "query" && k != "table" ==>
      p.config.nodes[k] == engine.nodes[k]
    ensures p.config.tags == options.config.tags && p.config.rest == options.config.rest
  {
    Parser(Config(options.config.tags,
      engine.nodes + map["query" := QueryNode, "table" := TableNode] + options.nodes,
      options.config.rest))
  }

  /** The default export: a parser built without options. */
  function DefaultParser(engine: Engine): Parser {
    NewParser(engine, Options(map[], EmptyConfig))
  }

  /** The default parser has Markdoc's nodes with `query` and `table` set to this extension's schemas. */
  lemma DefaultParserConfig(engine: Engine)
    ensures DefaultParser(engine).config ==
      Config(map[], engine.nodes[("query") := QueryNode][("table") := TableNode], map[])
  {
    var m := engine.nodes + map["query" := QueryNode, "table" := TableNode];
    assert m + map[] == m;
    assert m == engine.nodes[("query") := QueryNode][("table") := TableNode];
  }

  function Parse(engine: Engine, content: string): AstNode {
    engine.parse(content)
  }

  function Transform(p: Parser, engine: Engine, ast: AstNode): Node {
    engine.transform(ast, p.config)
  }

  /** `renderHtml`: parse, transform with the parser's configuration, serialise. */
  function RenderHtml(p: Parser, engine: Engine, content: string): (r: string)
    ensures r == engine.html(engine.transform(engine.parse(content), p.config))
  {
    engine.html(Transform(p, engine, Parse(engine, content)))
  }

  datatype ParsedHtml = ParsedHtml(frontmatter: Value, content: string)

  /**
   * `parseFile`: the YAML decoding of the frontmatter attribute, present or
   * not, with any falsy result replaced by `{}`, and the document as HTML; a
   * decoder error is an error.
   */
  function ParseFile(p: Parser, engine: Engine, content: string): (r: Result<ParsedHtml, string>)
    ensures var decoded := engine.yaml(FrontmatterAttribute(Parse(engine, content)));
      (r.Failure? <==> decoded.Failure?) &&
      (r.Failure? ==> r.error == decoded.error) &&
      (r.Success? ==> r.value.frontmatter == (if Truthy(decoded.value) then decoded.value else EmptyObject))
    ensures r.Success? ==> Truthy(r.value.frontmatter)
    ensures r.Success? ==> r.value.content == engine.html(Transform(p, engine, Parse(engine, content)))
  {
    var ast := Parse(engine, content);
    match engine.yaml(FrontmatterAttribute(ast))
    case Failure(e) => Failure(e)
    case Success(v) =>
      Success(ParsedHtml(if Truthy(v) then v else EmptyObject, engine.html(Transform(p, engine, ast))))
  }

  /** The HTML `parseFile` returns is exactly what `renderHtml` returns for the same text. */
  lemma ParseFileAgreesWithRenderHtml(p: Parser, engine: Engine, content: string)
    ensures var r := ParseFile(p, engine, content);
      r.Success? ==> r.value.content == RenderHtml(p, engine, content)
  {
  }
}
