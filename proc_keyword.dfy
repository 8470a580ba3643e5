/**
 * The `proc` keyword expansion pass. At a keyword position in a flat list of
 * sibling nodes it rewrites
 *   proc name(params) { body }   into   proc('name', params..., body)
 *   proc name(params) <other>    into   proc('name', params..., null) <other>
 *   proc name                    into   get_proc('name')
 * and lets an already functional `proc(...)` absorb a trailing code block.
 * `Expand` is the rewrite as a function on the list's contents; `Process`
 * performs it in place on the caller's list, as the source does.
 */
module ProcKeyword {
  import opened Wrappers
  import opened Ast

  const PROC: string := "proc"
  const GET_PROC: string := "get_proc"
  const CBRACE: string := "__cbrace__"

  const UNEXPECTED_KEYWORD: string := "Unexpected keyword"
  const EXPECTED_BRACES: string := "Expected braces to follow proc definition"
  const UNEXPECTED_USE: string := "Unexpected use of \"proc\" keyword"

  /** ConfigCompileException: a message and the target it points at. */
  datatype CompileError = ConfigCompileException(message: string, target: Target)

  /**
   * The helpers the keyword base class supplies, whose code is not part of this
   * model: validateCodeBlock (None when the block is accepted, otherwise the
   * exception it throws), isValidCodeBlock and getArgumentOrNull.
   */
  datatype KeywordHelpers = KeywordHelpers(
    validateCodeBlock: (ParseTree, string) -> Option<CompileError>,
    isValidCodeBlock: ParseTree -> bool,
    getArgumentOrNull: ParseTree -> ParseTree)

  /** A lone `proc` keyword token. */
  predicate IsKeyword(node: ParseTree) {
    node.data.kind == KeywordKind
  }

  /** A call node (`name(args...)`). */
  predicate IsFunction(node: ParseTree) {
    node.data.kind == FunctionKind
  }

  /** A bare name. */
  predicate IsBareString(node: ParseTree) {
    node.data.kind == BareStringKind
  }

  /** A `{ ... }` block, i.e. a call of `__cbrace__`. */
  predicate IsCBrace(node: ParseTree) {
    node.data.kind == FunctionKind && node.data.val == CBRACE
  }

  /** nodeIsProcFunction: a call of `proc`. */
  predicate NodeIsProcFunction(node: ParseTree)
    ensures NodeIsProcFunction(node) ==> IsFunction(node) && !IsKeyword(node) && !IsBareString(node) && !IsCBrace(node)
  {
    node.data.kind == FunctionKind && node.data.val == PROC
  }

  /** The string node naming the procedure, built from the call node `call`. */
  function NameNode(call: ParseTree, options: FileOptions): (n: ParseTree)
    ensures n.data.kind == StringKind && n.data.val == call.data.val
  {
    NewNode(Construct(StringKind, call.data.val, call.data.target), options, false)
  }

  /**
   * The `proc` node before its body is attached: the keyword's target, options
   * and modifiers; children are the name string, then the call's children.
   */
  function ProcHead(keyword: ParseTree, call: ParseTree): (n: ParseTree)
    ensures NodeIsProcFunction(n) && n.data.target == keyword.data.target
    ensures |n.children| == |call.children| + 1
    ensures n.children[0] == NameNode(call, keyword.options)
    ensures n.children[1..] == call.children
  {
    ParseTree(Construct(FunctionKind, PROC, keyword.data.target), keyword.options,
              keyword.modifiers, false, [NameNode(call, keyword.options)] + call.children)
  }

  /** The finished `proc` definition node: the head with `body` as its last child. */
  function ProcDefinition(keyword: ParseTree, call: ParseTree, body: ParseTree): (n: ParseTree)
    ensures NodeIsProcFunction(n) && n.options == keyword.options
    ensures keyword.modifiers <= n.modifiers
    ensures n.children == [NameNode(call, keyword.options)] + call.children + [body]
  {
    AddChild(ProcHead(keyword, call), body)
  }

  /** The body a forward declaration gets: a synthetic null node with the call's options. */
  function ForwardBody(call: ParseTree): (n: ParseTree)
    ensures n.data == NULL && n.children == []
  {
    NewNode(NULL, call.options, true)
  }

  /** The `get_proc('name')` node replacing `proc name`. */
  function GetProcNode(keyword: ParseTree, name: ParseTree): (n: ParseTree)
    ensures n.data == Construct(FunctionKind, GET_PROC, Unknown) && n.synthetic
    ensures |n.children| == 1 && n.children[0].data == Construct(StringKind, name.data.val, name.data.target)
  {
    AddChild(NewNode(Construct(FunctionKind, GET_PROC, Unknown), keyword.options, true),
             NewNode(Construct(StringKind, name.data.val, name.data.target), keyword.options, false))
  }

  /**
   * The rewrite at position i, as a function from the list before to the list
   * after, or the exception thrown. On success the nodes before i are kept,
   * one new node stands at i, and the nodes after the consumed span follow in
   * their old order; the node at i is then a proc or get_proc call.
   */
  function Expand(nodes: seq<ParseTree>, i: nat, h: KeywordHelpers): (r: Result<seq<ParseTree>, CompileError>)
    requires i < |nodes|
    ensures r.Success? ==>
      var consumed := |nodes| - |r.value| + 1;
      1 <= consumed <= 3 && i + consumed <= |nodes| &&
      r.value[..i] == nodes[..i] && r.value[i + 1..] == nodes[i + consumed..]
    ensures r.Success? ==> IsFunction(r.value[i]) && r.value[i].data.val in {PROC, GET_PROC}
    ensures NodeIsProcFunction(nodes[i]) ==> r.Success?
    ensures r.Failure? && r.error.message != UNEXPECTED_USE ==> IsKeyword(nodes[i])
  {
    var keyword := nodes[i];
    if IsKeyword(keyword) then
      if |nodes| <= i + 1 then
        Failure(ConfigCompileException(UNEXPECTED_KEYWORD, keyword.data.target))
      else if IsFunction(nodes[i + 1]) then
        if |nodes| > i + 2 then
          if IsCBrace(nodes[i + 2]) then
            match h.validateCodeBlock(nodes[i + 2], EXPECTED_BRACES)
            case Some(e) => Failure(e)
            case None =>
              var def := ProcDefinition(keyword, nodes[i + 1], h.getArgumentOrNull(nodes[i + 2]));
              Success(nodes[..i] + [def] + nodes[i + 3..])
          else
            var def := ProcDefinition(keyword, nodes[i + 1], ForwardBody(nodes[i + 1]));
            Success(nodes[..i] + [def] + nodes[i + 2..])
        else
          Failure(ConfigCompileException(EXPECTED_BRACES, nodes[i + 1].data.target))
      else if IsBareString(nodes[i + 1]) then
        Success(nodes[..i] + [GetProcNode(keyword, nodes[i + 1])] + nodes[i + 2..])
      else
        Failure(ConfigCompileException(UNEXPECTED_USE, keyword.data.target))
    else if NodeIsProcFunction(keyword) then
      if |nodes| > i + 1 && h.isValidCodeBlock(nodes[i + 1]) then
        Success(nodes[..i] + [AddChild(keyword, h.getArgumentOrNull(nodes[i + 1]))] + nodes[i + 2..])
      else
        Success(nodes)
    else
      Failure(ConfigCompileException(UNEXPECTED_USE, keyword.data.target))
  }

  // Properties of the rewrite, one per branch of the source's state machine.

  /** A lone keyword with nothing after it is an "Unexpected keyword" at the keyword. */
  lemma ExpandLoneKeywordAtEnd(nodes: seq<ParseTree>, i: nat, h: KeywordHelpers)
    requires i < |nodes| && IsKeyword(nodes[i]) && |nodes| == i + 1
    ensures Expand(nodes, i, h) == Failure(ConfigCompileException(UNEXPECTED_KEYWORD, nodes[i].data.target))
  {
  }

  /**
   * `proc f(params) { body }` becomes one `proc` node: the list shrinks by 2
   * and the new node holds the name, the parameters in order, then the block's argument.
   */
  lemma ExpandDefinitionWithBody(nodes: seq<ParseTree>, i: nat, h: KeywordHelpers)
    requires i + 2 < |nodes| && IsKeyword(nodes[i]) && IsFunction(nodes[i + 1]) && IsCBrace(nodes[i + 2])
    requires h.validateCodeBlock(nodes[i + 2], EXPECTED_BRACES).None?
    ensures var r := Expand(nodes, i, h);
      && r.Success? && |r.value| == |nodes| - 2
      && r.value[..i] == nodes[..i] && r.value[i + 1..] == nodes[i + 3..]
      && r.value[i].data == Construct(FunctionKind, PROC, nodes[i].data.target)
      && r.value[i].children == [NameNode(nodes[i + 1], nodes[i].options)] + nodes[i + 1].children
                                + [h.getArgumentOrNull(nodes[i + 2])]
      && nodes[i].modifiers <= r.value[i].modifiers
  {
  }

  /** A block that fails validation aborts with validateCodeBlock's exception. */
  lemma ExpandInvalidBody(nodes: seq<ParseTree>, i: nat, h: KeywordHelpers)
    requires i + 2 < |nodes| && IsKeyword(nodes[i]) && IsFunction(nodes[i + 1]) && IsCBrace(nodes[i + 2])
    requires h.validateCodeBlock(nodes[i + 2], EXPECTED_BRACES).Some?
    ensures Expand(nodes, i, h) == Failure(h.validateCodeBlock(nodes[i + 2], EXPECTED_BRACES).value)
  {
  }

  /**
   * `proc f(params)` followed by anything but a block is a forward declaration:
   * only two nodes are consumed (the list shrinks by 1), the body is a null
   * node, and the following node moves to i + 1.
   */
  lemma ExpandForwardDeclaration(nodes: seq<ParseTree>, i: nat, h: KeywordHelpers)
    requires i + 2 < |nodes| && IsKeyword(nodes[i]) && IsFunction(nodes[i + 1]) && !IsCBrace(nodes[i + 2])
    ensures var r := Expand(nodes, i, h);
      && r.Success? && |r.value| == |nodes| - 1
      && r.value[..i] == nodes[..i] && r.value[i + 1] == nodes[i + 2] && r.value[i + 1..] == nodes[i + 2..]
      && NodeIsProcFunction(r.value[i])
      && r.value[i].children == [NameNode(nodes[i + 1], nodes[i].options)] + nodes[i + 1].children
                                + [ForwardBody(nodes[i + 1])]
      && r.value[i].children[|r.value[i].children| - 1].data == NULL
      && nodes[i].modifiers <= r.value[i].modifiers
  {
  }

  /** `proc f(params)` at the very end is "Expected braces ..." at the call's target. */
  lemma ExpandMissingBraces(nodes: seq<ParseTree>, i: nat, h: KeywordHelpers)
    requires i + 2 == |nodes| && IsKeyword(nodes[i]) && IsFunction(nodes[i + 1])
    ensures Expand(nodes, i, h) == Failure(ConfigCompileException(EXPECTED_BRACES, nodes[i + 1].data.target))
  {
  }

  /** `proc name` becomes `get_proc('name')`: the list shrinks by 1. */
  lemma ExpandReference(nodes: seq<ParseTree>, i: nat, h: KeywordHelpers)
    requires i + 1 < |nodes| && IsKeyword(nodes[i]) && IsBareString(nodes[i + 1])
    ensures var r := Expand(nodes, i, h);
      && r.Success? && |r.value| == |nodes| - 1
      && r.value[..i] == nodes[..i] && r.value[i + 1..] == nodes[i + 2..]
      && r.value[i].data == Construct(FunctionKind, GET_PROC, Unknown)
      && r.value[i].children == [NewNode(Construct(StringKind, nodes[i + 1].data.val, nodes[i + 1].data.target),
                                         nodes[i].options, false)]
  {
  }

  /**
   * Every other shape is "Unexpected use of "proc" keyword" at node i: a
   * keyword followed by neither a call nor a bare name, or a node that is
   * neither a keyword nor a proc call.
   */
  lemma ExpandUnexpectedUse(nodes: seq<ParseTree>, i: nat, h: KeywordHelpers)
    requires i < |nodes|
    requires || (IsKeyword(nodes[i]) && i + 1 < |nodes| && !IsFunction(nodes[i + 1]) && !IsBareString(nodes[i + 1]))
             || (!IsKeyword(nodes[i]) && !NodeIsProcFunction(nodes[i]))
    ensures Expand(nodes, i, h) == Failure(ConfigCompileException(UNEXPECTED_USE, nodes[i].data.target))
  {
  }

  /**
   * Functional usage: a `proc(...)` call absorbs a following valid code block's
   * argument as its last child and the block is removed; otherwise the list is unchanged.
   */
  lemma ExpandFunctionalUsage(nodes: seq<ParseTree>, i: nat, h: KeywordHelpers)
    requires i < |nodes| && NodeIsProcFunction(nodes[i])
    ensures var r := Expand(nodes, i, h);
      && r.Success?
      && (i + 1 < |nodes| && h.isValidCodeBlock(nodes[i + 1]) ==>
            r.value == nodes[..i] + [AddChild(nodes[i], h.getArgumentOrNull(nodes[i + 1]))] + nodes[i + 2..])
      && (!(i + 1 < |nodes| && h.isValidCodeBlock(nodes[i + 1])) ==> r.value == nodes)
  {
  }

  /**
   * Running the pass again at the same position after a successful rewrite
   * changes nothing, unless a valid code block now follows a `proc` call
   * (which the functional branch would absorb); a `get_proc` node left there
   * is itself an unexpected use.
   */
  lemma ExpandAgain(nodes: seq<ParseTree>, i: nat, h: KeywordHelpers)
    requires i < |nodes| && Expand(nodes, i, h).Success?
    ensures var after := Expand(nodes, i, h).value;
      && i < |after|
      && (NodeIsProcFunction(after[i]) && !(i + 1 < |after| && h.isValidCodeBlock(after[i + 1])) ==>
            Expand(after, i, h) == Success(after))
      && (after[i].data.val == GET_PROC ==>
            Expand(after, i, h) == Failure(ConfigCompileException(UNEXPECTED_USE, after[i].data.target)))
  {
  }

  /** The caller's mutable List<ParseTree>, with the operations the pass uses. */
  class ParseTreeList {
    var items: seq<ParseTree>

    constructor (items: seq<ParseTree>)
      ensures this.items == items
    {
      this.items := items;
    }

    function Size(): nat
      reads this
    {
      |items|
    }

    function Get(k: nat): ParseTree
      reads this
      requires k < |items|
    {
      items[k]
    }

    /** list.remove(k) */
    method Remove(k: nat)
      requires k < |items|
      modifies this
      ensures items == old(items[..k] + items[k + 1..])
    {
      items := items[..k] + items[k + 1..];
    }

    /** list.add(k, node) */
    method Add(k: nat, node: ParseTree)
      requires k <= |items|
      modifies this
      ensures items == old(items[..k]) + [node] + old(items[k..])
    {
      items := items[..k] + [node] + items[k..];
    }

    /** The in-place update of the node object stored at k. */
    method Set(k: nat, node: ParseTree)
      requires k < |items|
      modifies this
      ensures items == old(items[k := node])
    {
      items := items[k := node];
    }
  }

  /**
   * Builds the head of a proc definition as the source does: a fresh `proc`
   * node, the keyword's modifiers merged in, the name string, then the call's
   * children one by one.
   */
  method StartProcDefinition(keyword: ParseTree, call: ParseTree) returns (procNode: ParseTree)
    ensures procNode == ProcHead(keyword, call)
    ensures procNode.children[1..] == call.children
  {
    procNode := NewNode(Construct(FunctionKind, PROC, keyword.data.target), keyword.options, false);
    procNode := MergeModifiers(procNode, keyword);
    procNode := AddChild(procNode, NameNode(call, keyword.options));
    for k := 0 to |call.children|
      invariant procNode == ProcHead(keyword, call).(children := [NameNode(call, keyword.options)] + call.children[..k])
    {
      procNode := AddChild(procNode, call.children[k]);
      assert call.children[..k + 1] == call.children[..k] + [call.children[k]];
    }
    assert call.children[..|call.children|] == call.children;
  }

  /**
   * process(list, keywordPosition): rewrites the list in place and returns the
   * position; on an exception the list is left exactly as it was.
   */
  method Process(list: ParseTreeList, keywordPosition: nat, h: KeywordHelpers) returns (r: Result<nat, CompileError>)
    requires keywordPosition < |list.items|
    modifies list
    ensures var e := Expand(old(list.items), keywordPosition, h);
      && (e.Success? ==> r == Success(keywordPosition) && list.items == e.value)
      && (e.Failure? ==> r == Failure(e.error) && list.items == old(list.items))
  {
    var i := keywordPosition;
    ghost var before := list.items;
    var keyword := list.Get(i);
    if IsKeyword(keyword) {
      if list.Size() <= i + 1 {
        return Failure(ConfigCompileException(UNEXPECTED_KEYWORD, keyword.data.target));
      }
      var next := list.Get(i + 1);
      if IsFunction(next) {
        var procNode := StartProcDefinition(keyword, next);
        var forwardDeclaration := false;
        if list.Size() > i + 2 {
          var block := list.Get(i + 2);
          if IsCBrace(block) {
            var invalid := h.validateCodeBlock(block, EXPECTED_BRACES);
            if invalid.Some? {
              return Failure(invalid.value);
            }
            procNode := AddChild(procNode, h.getArgumentOrNull(block));
          } else {
            forwardDeclaration := true;
            procNode := AddChild(procNode, ForwardBody(next));
          }
        } else {
          return Failure(ConfigCompileException(EXPECTED_BRACES, next.data.target));
        }
        list.Remove(i);
        list.Remove(i);
        if !forwardDeclaration {
          list.Remove(i);
          assert list.items == before[..i] + before[i + 3..];
        } else {
          assert list.items == before[..i] + before[i + 2..];
        }
        list.Add(i, procNode);
      } else if IsBareString(next) {
        list.Remove(i);
        list.Remove(i);
        assert list.items == before[..i] + before[i + 2..];
        var getProc := GetProcNode(keyword, next);
        list.Add(i, getProc);
      } else {
        return Failure(ConfigCompileException(UNEXPECTED_USE, keyword.data.target));
      }
    } else if NodeIsProcFunction(keyword) {
      if list.Size() > i + 1 {
        var block := list.Get(i + 1);
        if h.isValidCodeBlock(block) {
          list.Set(i, AddChild(keyword, h.getArgumentOrNull(block)));
          list.Remove(i + 1);
          assert list.items == before[..i] + [AddChild(keyword, h.getArgumentOrNull(block))] + before[i + 2..];
        }
      }
    } else {
      return Failure(ConfigCompileException(UNEXPECTED_USE, keyword.data.target));
    }
    return Success(i);
  }
}
