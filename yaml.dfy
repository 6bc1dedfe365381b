/**
 * The values a YAML loader hands back, as far as resource resolution looks at them,
 * and the two Python dictionary operations the resolver applies to them:
 * subscripting (`data[key]`) and `dict.get(key, default)`.
 *
 * Parsing itself is not modelled: a loader is a function from text to `Load`.
 */
module Yaml {

  /** A scalar node: what a plain YAML value or a mapping key loads as. */
  datatype Scalar = Null | Bool(b: bool) | Int(i: int) | Str(s: string)

  /** A loaded document: a scalar, a sequence of nodes or a mapping from scalar keys. */
  datatype Node =
    | ScalarNode(scalar: Scalar)
    | SequenceNode(items: seq<Node>)
    | MappingNode(entries: map<Scalar, Node>)

  /** What the loader returns for a text: a document, or a syntax error (`yaml.YAMLError`). */
  datatype Load = Loaded(doc: Node) | YamlError

  /** The outcome of the Python expression `doc[key]` for a string key:
    * the value, a `KeyError` when a mapping lacks the key, or a `TypeError`
    * when the document is not a mapping at all (a string, a list, `None`, a number). */
  datatype Indexed = Value(value: Node) | KeyError(key: string) | TypeError

  /** The empty string as a loaded value, the default the resolver substitutes. */
  const EmptyString: Node := ScalarNode(Str(""))

  /** Python's `doc[key]` on a loaded document. */
  function Index(doc: Node, key: string): (r: Indexed)
    ensures r.TypeError? <==> !doc.MappingNode?
    ensures r.KeyError? <==> doc.MappingNode? && Str(key) !in doc.entries
    ensures r.KeyError? ==> r.key == key
    ensures r.Value? ==> doc.MappingNode? && Str(key) in doc.entries && r.value == doc.entries[Str(key)]
  {
    match doc
    case MappingNode(entries) =>
      if Str(key) in entries then Value(entries[Str(key)]) else KeyError(key)
    case _ => TypeError
  }

  /** Python's `entries.get(key, default)` on a loaded mapping. */
  function Get(entries: map<Scalar, Node>, key: string, default: Node): (r: Node)
    ensures Str(key) in entries ==> r == entries[Str(key)]
    ensures Str(key) !in entries ==> r == default
  {
    if Str(key) in entries then entries[Str(key)] else default
  }
}
