/** The boundary to the TOML library. Its document tree is modelled as a
    datatype; parsing and the three formatters are foreign and enter the model
    only as function-valued parameters (`Parser`, `Formatters`), about which
    nothing is assumed. */
module Toml {
  import opened Results
  import opened Types

  /** A node of a parsed document: the three leaf kinds the schema reads, a
      nested table, or any other kind of node (float, date, array, ...). */
  datatype Node =
    | Integer(number: int)
    | Text(text: string)
    | Boolean(flag: bool)
    | Table(entries: map<string, Node>)
    | Other

  /** `toml::table`, the root of a document. */
  type Document = map<string, Node>

  /** `toml::parse`: a document, or the parser's error message. */
  type Parser = string -> Expected<Document>

  /** The three renderers of a document: `operator<<` on a table, then
      `json_formatter` and `yaml_formatter`. */
  datatype Formatters = Formatters(toml: Document -> string, json: Document -> string, yaml: Document -> string)

  /** `n[k1][k2]...`: the node at a key path; a missing key, or a key applied
      to a node that is not a table, gives the empty view. */
  function At(n: Node, path: seq<string>): (r: Option<Node>)
    ensures path == [] ==> r == Some(n)
    ensures path != [] && !n.Table? ==> r == None
    ensures path != [] && n.Table? && path[0] !in n.entries ==> r == None
    ensures path != [] && n.Table? && path[0] in n.entries ==> r == At(n.entries[path[0]], path[1..])
    decreases |path|
  {
    if path == [] then Some(n)
    else match n
      case Table(m) => if path[0] in m then At(m[path[0]], path[1..]) else None
      case _ => None
  }

  /** The node at a key path from the root of a document. */
  function Lookup(doc: Document, path: seq<string>): Option<Node>
  {
    At(Table(doc), path)
  }

  /** The library's permissive reading of a node as the integer `x`: an
      integer node holding `x`, or a boolean node read as 1 or 0. */
  ghost predicate ReadsAsInteger(n: Node, x: int)
  {
    n == Integer(x) || (n == Boolean(x == 1) && (x == 0 || x == 1))
  }

  /** The library's permissive reading of a node as the boolean `b`: a
      boolean node holding `b`, or an integer node read as "not zero". */
  ghost predicate ReadsAsBool(n: Node, b: bool)
  {
    n == Boolean(b) || (n.Integer? && (n.number != 0) == b)
  }

  /** `value<u32>()`: an integer, or a boolean as 0 or 1, that fits 32
      unsigned bits. */
  function AsU32(n: Option<Node>): (r: Option<U32>)
    ensures forall x: U32 :: r == Some(x) <==> n.Some? && ReadsAsInteger(n.value, x as int)
    ensures r.None? <==> n.None? || !exists x: int :: 0 <= x < 0x1_0000_0000 && ReadsAsInteger(n.value, x)
  {
    match n
    case Some(Integer(i)) => if 0 <= i < 0x1_0000_0000 then Some(i as U32) else None
    case Some(Boolean(b)) => Some(if b then 1 else 0)
    case _ => None
  }

  /** `value<u16>()`: an integer, or a boolean as 0 or 1, that fits 16
      unsigned bits. */
  function AsU16(n: Option<Node>): (r: Option<U16>)
    ensures forall x: U16 :: r == Some(x) <==> n.Some? && ReadsAsInteger(n.value, x as int)
    ensures r.None? <==> n.None? || !exists x: int :: 0 <= x < 0x1_0000 && ReadsAsInteger(n.value, x)
  {
    match n
    case Some(Integer(i)) => if 0 <= i < 0x1_0000 then Some(i as U16) else None
    case Some(Boolean(b)) => Some(if b then 1 else 0)
    case _ => None
  }

  /** `value<string>()`: a string node, and nothing else. */
  function AsString(n: Option<Node>): (r: Option<string>)
    ensures r.Some? <==> n.Some? && n.value.Text?
    ensures r.Some? ==> n.value.text == r.value
  {
    match n
    case Some(Text(s)) => Some(s)
    case _ => None
  }

  /** `value<bool>()`: a boolean node, or an integer node read as "not
      zero". */
  function AsBool(n: Option<Node>): (r: Option<bool>)
    ensures forall b :: r == Some(b) <==> n.Some? && ReadsAsBool(n.value, b)
    ensures r.None? <==> n.None? || !(n.value.Boolean? || n.value.Integer?)
  {
    match n
    case Some(Boolean(b)) => Some(b)
    case Some(Integer(i)) => Some(i != 0)
    case _ => None
  }
}
