/**
 * The parse-tree model shared by the keyword pass and the type system:
 * source targets, constructs (the data a node holds) and nodes.
 */
module Ast {

  /** A source coordinate; `Unknown` marks synthesized nodes (Target.UNKNOWN). */
  datatype Target = Unknown | At(file: string, line: int, column: int)

  /** Per-file compiler options carried by every node; their contents do not matter here. */
  datatype FileOptions = FileOptions(file: string)

  /** One entry of a node's modifier set (annotations used by later passes). */
  datatype NodeModifier = NodeModifier(name: string)

  /** The runtime class of a node's data, as far as the keyword pass distinguishes them. */
  datatype Kind =
    | KeywordKind     // CKeyword
    | FunctionKind    // CFunction: val() is the function's name
    | BareStringKind  // CBareString
    | StringKind      // CString
    | NullKind        // CNull
    | OtherKind       // any other construct

  /** A construct: its class, its `val()` and its target. */
  datatype Construct = Construct(kind: Kind, val: string, target: Target)

  /** CNull.NULL */
  const NULL: Construct := Construct(NullKind, "null", Unknown)

  /** A parse tree node: data, file options, modifiers, the synthetic flag and ordered children. */
  datatype ParseTree = ParseTree(
    data: Construct,
    options: FileOptions,
    modifiers: set<NodeModifier>,
    synthetic: bool,
    children: seq<ParseTree>)

  /** `new ParseTree(data, options, synthetic)`: no modifiers, no children. */
  function NewNode(data: Construct, options: FileOptions, synthetic: bool): (n: ParseTree)
    ensures n.data == data && n.options == options && n.synthetic == synthetic
    ensures n.modifiers == {} && n.children == []
  {
    ParseTree(data, options, {}, synthetic, [])
  }

  /** `node.addChild(child)`: the child goes last, nothing else about the node changes. */
  function AddChild(node: ParseTree, child: ParseTree): (n: ParseTree)
    ensures |n.children| == |node.children| + 1
    ensures n.children[..|node.children|] == node.children
    ensures n.children[|node.children|] == child
    ensures n.data == node.data && n.options == node.options
    ensures n.modifiers == node.modifiers && n.synthetic == node.synthetic
  {
    node.(children := node.children + [child])
  }

  /** `getNodeModifiers().merge(other)`: the other node's modifiers are added. */
  function MergeModifiers(node: ParseTree, other: ParseTree): (n: ParseTree)
    ensures n.modifiers == node.modifiers + other.modifiers
    ensures n.data == node.data && n.options == node.options
    ensures n.synthetic == node.synthetic && n.children == node.children
  {
    node.(modifiers := node.modifiers + other.modifiers)
  }
}
