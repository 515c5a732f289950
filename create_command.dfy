/**
 * The `create` command of the Tinybird CLI: the resource type to directory
 * map, the per-type template text, the upward search for a `tinybird`
 * project directory, and the choice of the file to write.
 *
 * Paths are sequences of segments below the file-system root (the root
 * itself is the empty sequence); whether a path exists is a parameter.
 */
module CreateCommand {
  import opened Wrappers
  import TinybirdMarkdoc

  datatype ResourceType = Table | Query | Connection | Secret | Variable

  /** The command-line spelling of a resource type. */
  function TypeName(t: ResourceType): string {
    match t
    case Table => "table"
    case Query => "query"
    case Connection => "connection"
    case Secret => "secret"
    case Variable => "variable"
  }

  /** The `type` argument, which accepts exactly the five spellings. */
  function ParseResourceType(s: string): (r: Option<ResourceType>)
    ensures r.Some? ==> TypeName(r.value) == s
  {
    if s == "table" then Some(Table)
    else if s == "query" then Some(Query)
    else if s == "connection" then Some(Connection)
    else if s == "secret" then Some(Secret)
    else if s == "variable" then Some(Variable)
    else None
  }

  /** Every resource type is accepted under its own spelling. */
  lemma ParseTypeName(t: ResourceType)
    ensures ParseResourceType(TypeName(t)) == Some(t)
  {
  }

  /** `getResourceDir`: the project sub-directory holding each type's files. */
  function ResourceDir(t: ResourceType): (d: string)
    ensures d == (if t == Query then "queries" else TypeName(t) + "s")
  {
    match t
    case Table => "tables"
    case Query => "queries"
    case Connection => "connections"
    case Secret => "secrets"
    case Variable => "variables"
  }

  /** Different resource types never share a directory. */
  lemma ResourceDirInjective(t1: ResourceType, t2: ResourceType)
    ensures ResourceDir(t1) == ResourceDir(t2) ==> t1 == t2
  {
    assert ResourceDir(t1)[0] == TypeName(t1)[0] && ResourceDir(t2)[0] == TypeName(t2)[0];
  }

  // ---------------------------------------------------------------------
  // Templates
  // ---------------------------------------------------------------------

  /** `getTemplateContent`: the text of a new resource file. */
  function TemplateContent(t: ResourceType, name: string): (r: string)
    ensures Frontmatter(t, name) <= r
  {
    var header := Frontmatter(t, name);
    match t
    case Table =>
      header + ("\n" + ("{% datasource name=\"" + name + "\" delimiter=\"|\" %}" + ("\n" +
      (TablePlaceholder + ("\n" + ("{% /datasource %}" + "\n"))))))
    case Query =>
      header + ("\n" + ("{% query name=\"" + name + "\" %}" + ("\n" +
      ("SELECT * FROM table_name" + ("\n" + ("{% /query %}" + "\n"))))))
    case Connection =>
      header + ("" + ("{% connection name=\"" + name + "\" %}" + ("\n" +
      ("type: kafka\nhost: localhost\nport: 9092" + ("\n" + ("{% /connection %}" + "\n"))))))
    case Secret =>
      header + ("" + ("{% secret name=\"" + name + "\" %}" + ("\n" +
      ("key: value" + ("\n" + ("{% /secret %}" + "\n"))))))
    case Variable =>
      header + ("" + ("{% variable name=\"" + name + "\" %}" + ("\n" +
      ("key: value" + ("\n" + ("{% /variable %}" + "\n"))))))
  }

  /** The frontmatter up to the name. */
  function NamePrefix(t: ResourceType): string {
    "---\ntype: " + TypeName(t) + "\nname: "
  }

  /** The frontmatter block every template starts with, with its closing line break. */
  function Frontmatter(t: ResourceType, name: string): string {
    NamePrefix(t) + name + "\n---\n"
  }

  /** The Markdoc tag a template opens: the type's own name, except `datasource` for a table. */
  function TagName(t: ResourceType): string {
    if t == Table then "datasource" else TypeName(t)
  }

  /** A table's opening tag also sets the bar delimiter. */
  function ExtraAttributes(t: ResourceType): string {
    if t == Table then " delimiter=\"|\"" else ""
  }

  /** The opening tag, whose `name` attribute is the resource name. */
  function OpenTag(t: ResourceType, name: string): string {
    "{% " + TagName(t) + " name=\"" + name + "\"" + ExtraAttributes(t) + " %}"
  }

  function CloseTag(t: ResourceType): string {
    "{% /" + TagName(t) + " %}"
  }

  /** The placeholder schema line of a new table file, `column|type|expression|description`. */
  const TablePlaceholder: string := "column" + "|" + "type" + "|" + "expression" + ("|" + "description")

  /** The placeholder body between the tags. */
  function Body(t: ResourceType): string {
    match t
    case Table => TablePlaceholder
    case Query => "SELECT * FROM table_name"
    case Connection => "type: kafka\nhost: localhost\nport: 9092"
    case Secret => "key: value"
    case Variable => "key: value"
  }

  /** Tables and queries leave a blank line after the frontmatter. */
  function Gap(t: ResourceType): string {
    if t == Table || t == Query then "\n" else ""
  }

  /** The opening tag as it is spelled in each template. */
  lemma OpenTagSpelling(t: ResourceType, name: string)
    ensures OpenTag(t, name) == "{% " + TagName(t) + " name=\"" + name + (if t == Table then "\" delimiter=\"|\" %}" else "\" %}")
  {
    var q := "{% " + TagName(t) + " name=\"" + name;
    assert OpenTag(t, name) == q + ("\"" + ExtraAttributes(t) + " %}");
    if t == Table {
      assert "\"" + " delimiter=\"|\"" + " %}" == "\" delimiter=\"|\" %}";
    } else {
      assert "\"" + "" + " %}" == "\" %}";
    }
  }

  /**
   * Every template is the frontmatter, an optional blank line, the opening
   * tag, the body and the matching closing tag, each on its own line.
   */
  lemma TemplateLayout(t: ResourceType, name: string)
    ensures TemplateContent(t, name) == Layout(t, name)
  {
    match t {
      case Table => TableLayout(t, name);
      case Query => QueryLayout(t, name);
      case Connection => ConnectionLayout(t, name);
      case Secret => SecretLayout(t, name);
      case Variable => VariableLayout(t, name);
    }
  }

  /** The parts of a template, in order. */
  function Layout(t: ResourceType, name: string): string {
    Frontmatter(t, name) + (Gap(t) + (OpenTag(t, name) + ("\n" + (Body(t) + ("\n" + (CloseTag(t) + "\n"))))))
  }

  lemma TableLayout(t: ResourceType, name: string)
    requires t == Table
    ensures TemplateContent(t, name) == Layout(t, name)
  {
    OpenTagSpelling(t, name);
    assert "{% " + "datasource" + " name=\"" == "{% datasource name=\"";
    assert OpenTag(t, name) == "{% datasource name=\"" + name + "\" delimiter=\"|\" %}";
    assert CloseTag(t) == "{% /datasource %}";
  }

  lemma QueryLayout(t: ResourceType, name: string)
    requires t == Query
    ensures TemplateContent(t, name) == Layout(t, name)
  {
    OpenTagSpelling(t, name);
    assert "{% " + "query" + " name=\"" == "{% query name=\"";
    assert OpenTag(t, name) == "{% query name=\"" + name + "\" %}";
    assert CloseTag(t) == "{% /query %}";
  }

  lemma ConnectionLayout(t: ResourceType, name: string)
    requires t == Connection
    ensures TemplateContent(t, name) == Layout(t, name)
  {
    OpenTagSpelling(t, name);
    assert "{% " + "connection" + " name=\"" == "{% connection name=\"";
    assert OpenTag(t, name) == "{% connection name=\"" + name + "\" %}";
    assert CloseTag(t) == "{% /connection %}";
  }

  lemma SecretLayout(t: ResourceType, name: string)
    requires t == Secret
    ensures TemplateContent(t, name) == Layout(t, name)
  {
    OpenTagSpelling(t, name);
    assert "{% " + "secret" + " name=\"" == "{% secret name=\"";
    assert OpenTag(t, name) == "{% secret name=\"" + name + "\" %}";
    assert CloseTag(t) == "{% /secret %}";
  }

  lemma VariableLayout(t: ResourceType, name: string)
    requires t == Variable
    ensures TemplateContent(t, name) == Layout(t, name)
  {
    OpenTagSpelling(t, name);
    assert "{% " + "variable" + " name=\"" == "{% variable name=\"";
    assert OpenTag(t, name) == "{% variable name=\"" + name + "\" %}";
    assert CloseTag(t) == "{% /variable %}";
  }

  /** A connection, secret or variable file opens and closes a tag named like its type. */
  lemma TagNamedByType(t: ResourceType)
    requires t != Table && t != Query
    ensures TagName(t) == TypeName(t) && CloseTag(t) == "{% /" + TypeName(t) + " %}"
  {
  }

  /**
   * Read by the datasource tag with the bar delimiter, the placeholder body
   * of a new table file is one column, and no other body has a column.
   */
  lemma BodyColumns(t: ResourceType)
    ensures TinybirdMarkdoc.RowOf(Body(t), "|") ==
      if t == Table then Some(PlaceholderColumn) else None
  {
    if t == Table {
      PlaceholderRow();
    } else {
      BodyWithoutBar(t);
    }
  }

  /** The column the table placeholder names. */
  const PlaceholderColumn := TinybirdMarkdoc.Column("column", "type", "expression", Some("description"))

  /** The table placeholder is the bar-delimited row of its column. */
  lemma PlaceholderRow()
    ensures TinybirdMarkdoc.RowOf(TablePlaceholder, "|") == Some(PlaceholderColumn)
  {
    assert TinybirdMarkdoc.WellFormedColumn(PlaceholderColumn, '|');
    TinybirdMarkdoc.RowOfFormatRow(PlaceholderColumn, '|');
  }

  /** No body but the table's contains the bar, so none of them is a column. */
  lemma BodyWithoutBar(t: ResourceType)
    requires t != Table
    ensures TinybirdMarkdoc.RowOf(Body(t), "|") == None
  {
    BodyBarFree(t);
    TinybirdMarkdoc.LineWithoutDelimiter(Body(t), '|');
  }

  lemma BodyBarFree(t: ResourceType)
    requires t != Table
    ensures '|' !in Body(t)
  {
    match t
    case Query => QueryBodyBarFree();
    case Connection => ConnectionBodyBarFree();
    case Secret =>
    case Variable =>
  }

  lemma QueryBodyBarFree()
    ensures '|' !in Body(Query)
  {
  }

  lemma ConnectionBodyBarFree()
    ensures '|' !in Body(Connection)
  {
  }

  /** Two equal strings, each a line break-free head then a line break, have equal heads. */
  lemma {:induction false} SameFirstLine(a: string, b: string, c: string, d: string)
    requires '\n' !in a && '\n' !in c && a + "\n" + b == c + "\n" + d
    ensures a == c
  {
    var s := a + "\n" + b;
    assert s[|a|] == '\n';
    assert (c + "\n" + d)[|c|] == '\n';
    assert |a| == |c|;
    assert a == s[..|a|];
    assert c == (c + "\n" + d)[..|c|];
  }

  /**
   * The resource type is spelled from the eleventh character on of any text
   * that starts with the frontmatter, every template included.
   */
  lemma TypeLetter(t: ResourceType, name: string, r: string)
    requires Frontmatter(t, name) <= r
    ensures |r| > 10 && r[10] == TypeName(t)[0]
  {
    var lead := "---\ntype: ";
    assert NamePrefix(t) == lead + (TypeName(t) + "\nname: ");
    assert Frontmatter(t, name)[10] == NamePrefix(t)[10];
  }

  /** In such a text, what follows the name prefix is the name and a line break. */
  lemma AfterPrefix(t: ResourceType, name: string, r: string)
    requires Frontmatter(t, name) <= r
    ensures var p := NamePrefix(t);
      |p| <= |r| && r[|p|..] == name + "\n" + ("---\n" + r[|Frontmatter(t, name)|..])
  {
    var f := Frontmatter(t, name);
    assert r == f + r[|f|..];
    assert f == NamePrefix(t) + (name + "\n" + "---\n");
  }

  /**
   * A template determines its resource type and, for a name without line
   * breaks, its name: no two requests produce the same file text.
   */
  lemma TemplateInjective(t1: ResourceType, n1: string, t2: ResourceType, n2: string)
    requires '\n' !in n1 && '\n' !in n2
    requires TemplateContent(t1, n1) == TemplateContent(t2, n2)
    ensures t1 == t2 && n1 == n2
  {
    FrontmatterInjective(t1, n1, t2, n2, TemplateContent(t1, n1));
  }

  /** Two frontmatters that start the same text, names free of line breaks, are equal. */
  lemma FrontmatterInjective(t1: ResourceType, n1: string, t2: ResourceType, n2: string, r: string)
    requires '\n' !in n1 && '\n' !in n2
    requires Frontmatter(t1, n1) <= r && Frontmatter(t2, n2) <= r
    ensures t1 == t2 && n1 == n2
  {
    TypeLetter(t1, n1, r);
    TypeLetter(t2, n2, r);
    assert t1 == t2;
    AfterPrefix(t1, n1, r);
    AfterPrefix(t2, n2, r);
    SameFirstLine(n1, "---\n" + r[|Frontmatter(t1, n1)|..], n2, "---\n" + r[|Frontmatter(t2, n2)|..]);
  }

  // ---------------------------------------------------------------------
  // Finding the project directory
  // ---------------------------------------------------------------------

  /** A path as its segments below the root; `[]` is the root. */
  type Path = seq<string>

  const ProjectDirName: string := "tinybird"

  /** `path.join(dir, 'tinybird')`. */
  function Candidate(dir: Path): Path {
    dir + [ProjectDirName]
  }

  /** `path.basename`: the last segment, empty for the root. */
  function Basename(p: Path): string {
    if p == [] then "" else p[|p| - 1]
  }

  /**
   * The reference search: the `tinybird` child of the deepest ancestor of
   * `dir` (itself included, the root excluded) where that child present.
   */
  function SearchUp(dir: Path, present: Path -> bool): (r: Option<Path>)
    ensures r.Some? ==> present(r.value) && Basename(r.value) == ProjectDirName
    decreases |dir|
  {
    if dir == [] then None
    else if present(Candidate(dir)) then Some(Candidate(dir))
    else SearchUp(dir[..|dir| - 1], present)
  }

  /** `findTinybirdDir`: walk up from `start` until the root, testing each directory's `tinybird` child. */
  method FindTinybirdDir(start: Path, present: Path -> bool) returns (r: Option<Path>)
    ensures r == SearchUp(start, present)
  {
    var current := start;
    while current != []
      invariant SearchUp(current, present) == SearchUp(start, present)
      decreases |current|
    {
      var candidate := Candidate(current);
      if present(candidate) {
        return Some(candidate);
      }
      current := current[..|current| - 1];
    }
    return None;
  }

  /**
   * The search finds the `tinybird` child of the ancestor `start[..k]`
   * exactly when that child exists and no deeper ancestor has one.
   */
  lemma {:induction false} SearchUpFinds(start: Path, present: Path -> bool, k: nat)
    requires 1 <= k <= |start|
    ensures SearchUp(start, present) == Some(Candidate(start[..k])) <==>
      present(Candidate(start[..k])) && forall j :: k < j <= |start| ==> !present(Candidate(start[..j]))
    decreases |start|
  {
    if k < |start| {
      var parent := start[..|start| - 1];
      assert parent[..k] == start[..k];
      assert start[..|start|] == start;
      if present(Candidate(start)) {
        assert SearchUp(start, present) == Some(Candidate(start));
        assert |Candidate(start)| != |Candidate(start[..k])|;
        assert present(Candidate(start[..|start|]));
      } else {
        assert SearchUp(start, present) == SearchUp(parent, present);
        assert forall j :: k < j <= |parent| ==> parent[..j] == start[..j];
        SearchUpFinds(parent, present, k);
      }
    } else {
      assert start[..k] == start;
    }
  }

  /** The search finds nothing exactly when no ancestor but the root has a `tinybird` child. */
  lemma {:induction false} SearchUpNone(start: Path, present: Path -> bool)
    ensures SearchUp(start, present) == None <==> forall k :: 1 <= k <= |start| ==> !present(Candidate(start[..k]))
    decreases |start|
  {
    if start != [] {
      var parent := start[..|start| - 1];
      assert forall k :: 1 <= k <= |parent| ==> parent[..k] == start[..k];
      assert start[..|start|] == start;
      SearchUpNone(parent, present);
    }
  }

  /** Whatever the search returns is the `tinybird` child of an ancestor other than the root. */
  lemma {:induction false} SearchUpAncestor(start: Path, present: Path -> bool)
    requires SearchUp(start, present).Some?
    ensures var p := SearchUp(start, present).value;
      2 <= |p| <= |start| + 1 && p == Candidate(start[..|p| - 1])
    decreases |start|
  {
    if !present(Candidate(start)) {
      var parent := start[..|start| - 1];
      SearchUpAncestor(parent, present);
      var p := SearchUp(start, present).value;
      assert parent[..|p| - 1] == start[..|p| - 1];
    } else {
      assert start[..|start|] == start;
    }
  }

  // ---------------------------------------------------------------------
  // The file to create
  // ---------------------------------------------------------------------

  datatype CreateError =
    | DirectoryNotFound(dir: Path)
    | NoProjectDirectory
    | ResourceDirectoryMissing(resourceDir: string)
    | FileExists(fileName: string, resourceDir: string)

  /** The file to write and its contents. */
  datatype Creation = Creation(filePath: Path, content: string)

  /** The file name of a resource. */
  function FileName(name: string): string {
    name + ".tinybird"
  }

  /**
   * The project directory: with a non-empty `--dir`, the resolved directory
   * itself when it is named `tinybird`, otherwise the search from it (an
   * error if it does not exist); without one, the search from the working
   * directory.
   */
  function ProjectDir(dir: Option<string>, cwd: Path, resolve: string -> Path, present: Path -> bool): (r: Result<Option<Path>, CreateError>)
    ensures r.Failure? <==> dir.Some? && dir.value != "" && !present(resolve(dir.value))
    ensures r.Failure? ==> r.error == DirectoryNotFound(resolve(dir.value))
    ensures r.Success? && r.value.Some? ==> present(r.value.value) && Basename(r.value.value) == ProjectDirName
    ensures (dir.None? || dir == Some("")) ==> r == Success(SearchUp(cwd, present))
    ensures dir.Some? && dir.value != "" && present(resolve(dir.value)) ==>
      var d := resolve(dir.value);
      r == Success(if Basename(d) == ProjectDirName then Some(d) else SearchUp(d, present))
  {
    if dir.Some? && dir.value != "" then
      var dirPath := resolve(dir.value);
      if !present(dirPath) then Failure(DirectoryNotFound(dirPath))
      else if Basename(dirPath) == ProjectDirName && present(dirPath) then Success(Some(dirPath))
      else Success(SearchUp(dirPath, present))
    else Success(SearchUp(cwd, present))
  }

  /**
   * The outcome of `create <type> <name>`: the file to write, or why
   * nothing is written.
   */
  function Plan(t: ResourceType, name: string, dir: Option<string>, cwd: Path,
                resolve: string -> Path, present: Path -> bool): (r: Result<Creation, CreateError>)
    ensures var pd := ProjectDir(dir, cwd, resolve, present);
      (pd.Failure? ==> r == Failure(pd.error)) &&
      (r == Failure(NoProjectDirectory) <==> pd == Success(None))
    ensures r.Success? ==> !present(r.value.filePath) && r.value.content == TemplateContent(t, name)
    ensures r.Failure? && r.error.FileExists? ==> r.error == FileExists(FileName(name), ResourceDir(t))
    ensures var pd := ProjectDir(dir, cwd, resolve, present);
      pd.Success? && pd.value.Some? ==>
        var target := pd.value.value + [ResourceDir(t)];
        var file := target + [FileName(name)];
        (r.Success? <==> present(target) && !present(file)) &&
        (r == Failure(ResourceDirectoryMissing(ResourceDir(t))) <==> !present(target)) &&
        (r == Failure(FileExists(FileName(name), ResourceDir(t))) <==> present(target) && present(file)) &&
        (r.Success? ==> r.value.filePath == file)
  {
    match ProjectDir(dir, cwd, resolve, present)
    case Failure(e) => Failure(e)
    case Success(None) => Failure(NoProjectDirectory)
    case Success(Some(projectDir)) =>
      var targetDir := projectDir + [ResourceDir(t)];
      var filePath := targetDir + [FileName(name)];
      if !present(targetDir) then Failure(ResourceDirectoryMissing(ResourceDir(t)))
      else if present(filePath) then Failure(FileExists(FileName(name), ResourceDir(t)))
      else Success(Creation(filePath, TemplateContent(t, name)))
  }

  /**
   * A planned file is `<project>/<resource dir>/<name>.tinybird`, where the
   * project directory is named `tinybird` and present, the resource
   * directory present, the file does not (nothing is overwritten), and the
   * content is the type's template.
   */
  lemma PlanTarget(t: ResourceType, name: string, dir: Option<string>, cwd: Path,
                   resolve: string -> Path, present: Path -> bool)
    requires Plan(t, name, dir, cwd, resolve, present).Success?
    ensures var c := Plan(t, name, dir, cwd, resolve, present).value;
      var n := |c.filePath|;
      n >= 3 && c.filePath[n - 3] == ProjectDirName && c.filePath[n - 2] == ResourceDir(t) &&
      c.filePath[n - 1] == FileName(name) &&
      present(c.filePath[..n - 2]) && present(c.filePath[..n - 1]) && !present(c.filePath) &&
      c.content == TemplateContent(t, name) &&
      c.filePath == ProjectDir(dir, cwd, resolve, present).value.value + [ResourceDir(t), FileName(name)]
  {
    var projectDir := ProjectDir(dir, cwd, resolve, present).value.value;
    var c := Plan(t, name, dir, cwd, resolve, present).value;
    assert c.filePath == projectDir + [ResourceDir(t)] + [FileName(name)];
    assert c.filePath[..|c.filePath| - 2] == projectDir;
    assert c.filePath[..|c.filePath| - 1] == projectDir + [ResourceDir(t)];
  }

  /** Without `--dir`, there is no project exactly when no ancestor of the working directory has a `tinybird` child. */
  lemma PlanWithoutDir(t: ResourceType, name: string, cwd: Path, resolve: string -> Path, present: Path -> bool)
    ensures Plan(t, name, None, cwd, resolve, present) == Failure(NoProjectDirectory) <==>
      forall k :: 1 <= k <= |cwd| ==> !present(Candidate(cwd[..k]))
  {
    SearchUpNone(cwd, present);
  }
}
