/**
 * The part of the Markdoc markup engine, and of JavaScript's value model,
 * that the Tinybird tag definitions touch. Parsing, the engine's own
 * transform pass, HTML serialisation and YAML decoding are foreign: they
 * are carried as function values in an `Engine` and never interpreted.
 */
module Markdoc {
  import opened Wrappers
  import JsStrings

  /** A JavaScript value as it appears in attributes, YAML results and scalar tree nodes. */
  datatype Value =
    | VUndefined
    | VNull
    | VBool(b: bool)
    | VNumber(n: int)
    | VString(s: string)
    | VArray(items: seq<Value>)
    | VObject(fields: map<string, Value>)

  /** JavaScript truthiness (numbers are integers here, so NaN does not arise). */
  predicate Truthy(v: Value) {
    match v
    case VUndefined => false
    case VNull => false
    case VBool(b) => b
    case VNumber(n) => n != 0
    case VString(s) => s != ""
    case VArray(_) => true
    case VObject(_) => true
  }

  /** The empty object literal `{}`. */
  const EmptyObject: Value := VObject(map[])

  /** A node of a renderable tree: a Markdoc `Tag`, or any other value (a string, `undefined`, ...). */
  datatype Node =
    | Tag(name: string, attributes: map<string, Value>, children: seq<Node>)
    | Scalar(value: Value)

  /** A string child of a renderable tree. */
  function Text(s: string): Node {
    Scalar(VString(s))
  }

  /** A node of the abstract syntax tree that `Markdoc.parse` produces. */
  datatype AstNode = AstNode(
    nodeType: string,
    tag: Option<string>,
    attributes: map<string, Value>,
    children: seq<AstNode>,
    other: map<string, Value>)

  /** The value of an AST node's `attributes.frontmatter`, `undefined` when the key is absent. */
  function FrontmatterAttribute(ast: AstNode): (v: Value)
    ensures "frontmatter" !in ast.attributes ==> v == VUndefined
    ensures "frontmatter" in ast.attributes ==> v == ast.attributes["frontmatter"]
  {
    if "frontmatter" in ast.attributes then ast.attributes["frontmatter"] else VUndefined
  }

  datatype AttrType = StringType | OtherType(id: nat)

  /** One entry of a tag's attribute schema. */
  datatype AttrSpec = AttrSpec(attrType: AttrType, required: bool, default: Option<Value>)

  /** Which transform a schema carries; the closures themselves are modelled per tag. */
  datatype TransformRef = NoTransform | TransformOf(id: string)

  /** A Markdoc `Schema`: the element it renders as, its attributes and its transform. */
  datatype Schema = Schema(render: string, attributes: map<string, AttrSpec>, transform: TransformRef)

  /**
   * A Markdoc `Config`. An absent `tags` or `nodes` entry behaves as the empty
   * map; every other configuration key is kept, opaquely, in `rest`.
   */
  datatype Config = Config(tags: map<string, Schema>, nodes: map<string, Schema>, rest: map<string, Value>)

  const EmptyConfig: Config := Config(map[], map[], map[])

  /**
   * The foreign parts: `Markdoc.parse`, `Markdoc.transform`,
   * `Markdoc.renderers.html`, YAML `parse` (which may throw), and Markdoc's
   * built-in node schemas `Markdoc.nodes`.
   */
  datatype Engine = Engine(
    parse: string -> AstNode,
    transform: (AstNode, Config) -> Node,
    html: Node -> string,
    yaml: Value -> Result<Value, string>,
    nodes: map<string, Schema>)

  /**
   * The resolved `delimiter` attribute of a tag is a non-empty string
   * (Markdoc supplies the schema default when the document gives none).
   */
  predicate HasDelimiter(attributes: map<string, Value>) {
    "delimiter" in attributes && attributes["delimiter"].VString? && attributes["delimiter"].s != []
  }

  predicate IsDigit(ch: char) {
    '0' <= ch <= '9'
  }

  /** Decimal digits, without a leading zero unless the number is zero. */
  predicate IsDecimal(s: string) {
    s != [] && (forall i :: 0 <= i < |s| ==> IsDigit(s[i])) && (|s| > 1 ==> s[0] != '0')
  }

  /** The number a string of decimal digits stands for, read left to right. */
  function DecimalValue(s: string): nat
    requires forall i :: 0 <= i < |s| ==> IsDigit(s[i])
    decreases |s|
  {
    if s == [] then 0 else DecimalValue(s[..|s| - 1]) * 10 + DigitValue(s[|s| - 1])
  }

  function DigitValue(ch: char): nat
    requires IsDigit(ch)
  {
    ch as int - '0' as int
  }

  /**
   * Decimal text of an integer, as `String(n)` gives it: a minus sign
   * exactly for a negative number, then the digits of its magnitude with no
   * leading zero.
   */
  function IntToString(n: int): (r: string)
    ensures n >= 0 ==> IsDecimal(r) && DecimalValue(r) == n
    ensures n < 0 ==> |r| >= 2 && r[0] == '-' && IsDecimal(r[1..]) && DecimalValue(r[1..]) == -n
    decreases if n < 0 then 1 - n else n
  {
    if n < 0 then "-" + IntToString(-n)
    else if n < 10 then [(48 + n) as char]
    else IntToString(n / 10) + [(48 + n % 10) as char]
  }

  /** `String(v)`; `[].join` turns `undefined` and `null` elements into the empty string instead. */
  function ValueToString(v: Value): string
    decreases v, 1
  {
    match v
    case VUndefined => "undefined"
    case VNull => "null"
    case VBool(b) => if b then "true" else "false"
    case VNumber(n) => IntToString(n)
    case VString(s) => s
    case VArray(items) => JoinValues(items, ",")
    case VObject(_) => "[object Object]"
  }

  /** How `Array.prototype.join` renders one element. */
  function JoinElement(v: Value): string
    decreases v, 2
  {
    if v.VUndefined? || v.VNull? then "" else ValueToString(v)
  }

  /** `items.join(sep)` over an array of values. */
  function JoinValues(items: seq<Value>, sep: string): (r: string)
    ensures |items| == 0 ==> r == ""
    decreases items, 3
  {
    JsStrings.Join(seq(|items|, i requires 0 <= i < |items| => JoinElement(items[i])), sep)
  }

  /** How `Array.prototype.join` renders one renderable node; a `Tag` has no `toString` of its own. */
  function NodeToJoinString(n: Node): string {
    match n
    case Tag(_, _, _) => "[object Object]"
    case Scalar(v) => JoinElement(v)
  }

  /** A text node joins as its own text. */
  lemma TextJoinString(s: string)
    ensures NodeToJoinString(Text(s)) == s
  {
    assert JoinElement(VString(s)) == ValueToString(VString(s));
  }

  /** The strings `children.join(sep)` puts between the separators, one per child. */
  function ChildStrings(children: seq<Node>): (r: seq<string>)
    ensures |r| == |children|
    ensures forall i :: 0 <= i < |children| ==> r[i] == NodeToJoinString(children[i])
  {
    seq(|children|, i requires 0 <= i < |children| => NodeToJoinString(children[i]))
  }

  /** `children.join(sep)` over renderable nodes. */
  function JoinChildren(children: seq<Node>, sep: string): string {
    JsStrings.Join(ChildStrings(children), sep)
  }
}
