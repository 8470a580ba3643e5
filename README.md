# CommandHelper: the `proc` keyword pass and left hand side types

This project models two parts of the MethodScript compiler in CommandHelper and proves properties of them.

**The `proc` keyword pass** (`ProcKeyword.process`) works on the flat list of sibling parse-tree nodes, at a keyword position. It makes four rewrites:
- `proc name(params) { body }` becomes one `proc(name, params..., body)` node.
- A forward declaration `proc name(params)` becomes a `proc` node with a null body.
- `proc name` becomes `get_proc('name')`.
- An already functional `proc(...)` call absorbs a code block that follows it.

Every other shape fails with a compile exception. Every failure leaves the list untouched.

The pure function `ProcKeyword.Expand` describes the rewrite from the list before to the list after. `ProcKeyword.Process` performs the rewrite in place on the caller's list, a `ParseTreeList` object, in the same order of `remove`/`add` calls as the source, and is proved to agree with `Expand`.

**Left hand side types** (`LeftHandSideType`) are the types written in declarations. Such a type is an immutable, non-empty list of members. Each member is a class type with optional generics. More than one member makes a type union, and a union may contain neither `auto` nor `void`.

The model covers:
- the factories and the constructor's validation;
- the queries (`isTypeUnion`, `isVoid`, `isAuto`, `getTypes`, `getCollapsedType`, `asConcreteType`);
- the display strings (the construct's value and `getSimpleName`);
- the interface and superclass queries. These seed a hash set and prune it with an iterator. They are modelled as methods proved against a set-intersection function.

`Valid` is the invariant that every factory establishes. The queries assume it, as the Java class can rely on its private constructor.

The modules are:
- `Wrappers`: `Option` and `Result`.
- `Ast`: targets, constructs and parse-tree nodes.
- `ProcKeyword`: the keyword pass.
- `LeftHandSideTypes`: the type value.

Paths below are relative to the repository root. `ProcKeyword.java` is `src/main/java/com/laytonsmith/core/compiler/keywords/ProcKeyword.java`, and `LeftHandSideType.java` is `src/main/java/com/laytonsmith/core/constructs/LeftHandSideType.java`.

## Model

| member | source | states |
|---|---|---|
| Ast.NewNode | src/main/java/com/laytonsmith/core/compiler/keywords/ProcKeyword.java:34-35 | a new node carries the given data, options and synthetic flag, with no modifiers and no children |
| Ast.AddChild | src/main/java/com/laytonsmith/core/compiler/keywords/ProcKeyword.java:37-42 | addChild appends the child last and changes nothing else about the node |
| Ast.MergeModifiers | src/main/java/com/laytonsmith/core/compiler/keywords/ProcKeyword.java:36 | merging adds the other node's modifiers and leaves the rest of the node unchanged |
| ProcKeyword.NodeIsProcFunction | src/main/java/com/laytonsmith/core/compiler/keywords/ProcKeyword.java:89-91 | a `proc` function node is a call node, never a keyword, bare name or code block; Expand proves such a node at the position never fails |
| ProcKeyword.NameNode | src/main/java/com/laytonsmith/core/compiler/keywords/ProcKeyword.java:37-38 | the name child is a string holding the call's name |
| ProcKeyword.ProcHead | src/main/java/com/laytonsmith/core/compiler/keywords/ProcKeyword.java:34-42 | the new node is a `proc` call at the keyword's target; its children are the name string followed by the call's own children, in order |
| ProcKeyword.ProcDefinition | src/main/java/com/laytonsmith/core/compiler/keywords/ProcKeyword.java:34-53 | the finished definition is a `proc` call; its children are name, parameters, then body; it keeps the keyword's modifiers |
| ProcKeyword.ForwardBody | src/main/java/com/laytonsmith/core/compiler/keywords/ProcKeyword.java:50-52 | a forward declaration's body is a childless null node |
| ProcKeyword.GetProcNode | src/main/java/com/laytonsmith/core/compiler/keywords/ProcKeyword.java:63-69 | the reference node is a synthetic `get_proc` call with an unknown target and one string child holding the name |
| ProcKeyword.Expand | src/main/java/com/laytonsmith/core/compiler/keywords/ProcKeyword.java:26-87 | on success, 1 to 3 nodes are consumed and one node replaces them; nodes before and after keep their order; the new node is a `proc` or `get_proc` call; a `proc` call at the position never fails; only a keyword can fail with a message other than "Unexpected use" |
| ProcKeyword.ExpandLoneKeywordAtEnd | src/main/java/com/laytonsmith/core/compiler/keywords/ProcKeyword.java:27-32 | a keyword with nothing after it fails with "Unexpected keyword" at the keyword's target |
| ProcKeyword.ExpandDefinitionWithBody | src/main/java/com/laytonsmith/core/compiler/keywords/ProcKeyword.java:33-62 | keyword, call and valid block become one `proc` node; its children are name, parameters, then the block's argument; the list shrinks by 2; the keyword's modifiers are kept |
| ProcKeyword.ExpandInvalidBody | src/main/java/com/laytonsmith/core/compiler/keywords/ProcKeyword.java:45-47 | a block that fails validation aborts with validateCodeBlock's exception |
| ProcKeyword.ExpandForwardDeclaration | src/main/java/com/laytonsmith/core/compiler/keywords/ProcKeyword.java:49-62 | a call followed by a non-block consumes two nodes; the list shrinks by exactly 1; the body is a null node; the old `i+2` node lands at `i+1`; the keyword's modifiers are kept |
| ProcKeyword.ExpandMissingBraces | src/main/java/com/laytonsmith/core/compiler/keywords/ProcKeyword.java:54-56 | a call at the end of the list fails with "Expected braces to follow proc definition" at the call's target |
| ProcKeyword.ExpandReference | src/main/java/com/laytonsmith/core/compiler/keywords/ProcKeyword.java:63-69 | keyword and bare name become one `get_proc` node whose only child is the name string; the list shrinks by 1 |
| ProcKeyword.ExpandUnexpectedUse | src/main/java/com/laytonsmith/core/compiler/keywords/ProcKeyword.java:70-85 | a keyword followed by neither a call nor a bare name fails with "Unexpected use of "proc" keyword" at node `i`'s target; so does a node that is neither a keyword nor a proc call |
| ProcKeyword.ExpandFunctionalUsage | src/main/java/com/laytonsmith/core/compiler/keywords/ProcKeyword.java:74-91 | a `proc` call absorbs the argument of a following valid block, which is removed; otherwise the list is unchanged; this branch always succeeds |
| ProcKeyword.ExpandAgain | src/main/java/com/laytonsmith/core/compiler/keywords/ProcKeyword.java:26-91 | re-running the pass on its own output at the same position changes nothing unless a valid block follows the `proc` call; a `get_proc` result is itself an unexpected use |
| ProcKeyword.ParseTreeList.Remove | src/main/java/com/laytonsmith/core/compiler/keywords/ProcKeyword.java:57-60 | `list.remove(k)` drops exactly the element at k |
| ProcKeyword.ParseTreeList.Add | src/main/java/com/laytonsmith/core/compiler/keywords/ProcKeyword.java:62 | `list.add(k, node)` inserts the node at k and shifts the rest |
| ProcKeyword.ParseTreeList.Set | src/main/java/com/laytonsmith/core/compiler/keywords/ProcKeyword.java:78 | the node at k is replaced and every other element is kept |
| ProcKeyword.StartProcDefinition | src/main/java/com/laytonsmith/core/compiler/keywords/ProcKeyword.java:34-42 | the child-copying loop builds exactly ProcHead: the name, then every child of the call in order |
| ProcKeyword.Process | src/main/java/com/laytonsmith/core/compiler/keywords/ProcKeyword.java:26-87 | the in-place rewrite leaves the list equal to Expand's result and returns `keywordPosition`; on an exception the list is exactly as before |
| LeftHandSideTypes.FirstBarred | src/main/java/com/laytonsmith/core/constructs/LeftHandSideType.java:141-150 | the constructor's scan stops at the first `auto` or `void` member, and none comes before it |
| LeftHandSideTypes.BarredMemberError | src/main/java/com/laytonsmith/core/constructs/LeftHandSideType.java:143-148 | the union error is a CREIllegalArgumentException at the given target, with the auto message for `auto` and the void message for `void` |
| LeftHandSideTypes.FromCClassTypeUnion | src/main/java/com/laytonsmith/core/constructs/LeftHandSideType.java:119-151 | succeeds exactly when the members are valid (non-empty, no `auto`/`void` in a union) and then keeps them as given; empty input is IllegalArgumentException; otherwise the error names the first `auto`/`void` member |
| LeftHandSideTypes.FromCClassTypeWithGenerics | src/main/java/com/laytonsmith/core/constructs/LeftHandSideType.java:105-107 | one member with the given generics; never fails, even for `auto` or `void` |
| LeftHandSideTypes.FromCClassType | src/main/java/com/laytonsmith/core/constructs/LeftHandSideType.java:77-79 | one member with null generics; never fails |
| LeftHandSideTypes.FromHardCodedType | src/main/java/com/laytonsmith/core/constructs/LeftHandSideType.java:66-68 | as FromCClassType, with an unknown target |
| LeftHandSideTypes.FromCClassTypes | src/main/java/com/laytonsmith/core/constructs/LeftHandSideType.java:88-94 | the varargs factory builds the members in the given order with no deduplication; it succeeds iff the list is non-empty and a union holds no `auto`/`void` |
| LeftHandSideTypes.GetTypesRebuild | src/main/java/com/laytonsmith/core/constructs/LeftHandSideType.java:158-160 | getTypes loses nothing: the base factory rebuilds exactly the same type from the list it returns |
| LeftHandSideTypes.AllMembersAppend | src/main/java/com/laytonsmith/core/constructs/LeftHandSideType.java:52-54 | each `addAll` adds exactly the next input's members |
| LeftHandSideTypes.CollectMembers | src/main/java/com/laytonsmith/core/constructs/LeftHandSideType.java:51-54 | the hash-set loop yields exactly the merged set of members |
| LeftHandSideTypes.ListOf | src/main/java/com/laytonsmith/core/constructs/LeftHandSideType.java:55 | the list made from the set holds each element exactly once |
| LeftHandSideTypes.DistinctCardinality | src/main/java/com/laytonsmith/core/constructs/LeftHandSideType.java:55 | a list without repetitions has as many distinct elements as entries |
| LeftHandSideTypes.DistinctValidMembers | src/main/java/com/laytonsmith/core/constructs/LeftHandSideType.java:55 | for a repetition-free list, validity of the list equals validity of its set of members |
| LeftHandSideTypes.FromTypeUnion | src/main/java/com/laytonsmith/core/constructs/LeftHandSideType.java:50-56 | the result holds exactly the set-union of the inputs' members, each once, in an unspecified order, and the result satisfies the construction rules; it fails exactly when that set breaks them, with IllegalArgumentException when it is empty |
| LeftHandSideTypes.MergingBarredSingleFails | src/main/java/com/laytonsmith/core/constructs/LeftHandSideType.java:50-56 | merging a lone `void` or `auto` with a type holding any other member is rejected |
| LeftHandSideTypes.IsTypeUnion | src/main/java/com/laytonsmith/core/constructs/LeftHandSideType.java:175-177 | a union iff more than one member; a valid union holds no `auto` or `void` |
| LeftHandSideTypes.IsVoid | src/main/java/com/laytonsmith/core/constructs/LeftHandSideType.java:285-290 | true iff the type is exactly one `void` member, equivalently iff `void` occurs at all; a void type is never a union |
| LeftHandSideTypes.IsAuto | src/main/java/com/laytonsmith/core/constructs/LeftHandSideType.java:296-301 | true iff the type is exactly one `auto` member, equivalently iff `auto` occurs at all; an auto type is never a union |
| LeftHandSideTypes.GetCollapsedType | src/main/java/com/laytonsmith/core/constructs/LeftHandSideType.java:250-257 | a single type collapses to itself; a union fails with UnsupportedOperationException("Not yet supported") |
| LeftHandSideTypes.Value | src/main/java/com/laytonsmith/core/constructs/LeftHandSideType.java:124-132 | the construct value of a one-member type is that member's FQCN, followed by `<generics>` when generics are present; a union's value starts with its first member's form followed by the separator |
| LeftHandSideTypes.JoinInjective | src/main/java/com/laytonsmith/core/constructs/LeftHandSideType.java:124-132 | joining parts free of the bar character with the union separator loses nothing: equal joins come from equal part lists |
| LeftHandSideTypes.ValueListsMembers | src/main/java/com/laytonsmith/core/constructs/LeftHandSideType.java:124-132 | when no member's printed form contains the bar character, equal construct values imply equal lists of member printed forms, in order |
| LeftHandSideTypes.ValueOfSingleType | src/main/java/com/laytonsmith/core/constructs/LeftHandSideType.java:124-132 | the value of a one-member type without generics is its FQCN |
| LeftHandSideTypes.DisplayDependsOnOrder | src/main/java/com/laytonsmith/core/constructs/LeftHandSideType.java:124-132 | two members whose printed forms differ and contain no bar character print differently in opposite orders: the value string is not canonical |
| LeftHandSideTypes.SimpleName | src/main/java/com/laytonsmith/core/constructs/LeftHandSideType.java:179-191 | getSimpleName of a one-member type is that class's simple name, followed by `<generics>` in simple form when present; a union's simple name starts with its first member's form followed by the separator |
| LeftHandSideTypes.SimpleNameOfSingleType | src/main/java/com/laytonsmith/core/constructs/LeftHandSideType.java:179-191 | the simple name of a one-member type without generics is that class's simple name |
| LeftHandSideTypes.SimpleNameListsMembers | src/main/java/com/laytonsmith/core/constructs/LeftHandSideType.java:179-191 | when no member's simple form contains the bar character, equal simple names imply equal lists of member simple forms |
| LeftHandSideTypes.Meet | src/main/java/com/laytonsmith/core/constructs/LeftHandSideType.java:204-214 | x survives iff it is in the seed and in every member's lookup |
| LeftHandSideTypes.TypeInterfaces | src/main/java/com/laytonsmith/core/constructs/LeftHandSideType.java:200-216 | a single type gives its own interfaces; in every case x is included iff every member declares it |
| LeftHandSideTypes.RetainDeclared | src/main/java/com/laytonsmith/core/constructs/LeftHandSideType.java:207-213 | the iterator-remove loop leaves exactly the elements that are also declared |
| LeftHandSideTypes.CommonToAll | src/main/java/com/laytonsmith/core/constructs/LeftHandSideType.java:204-214 | the seeded, pruned set is the intersection over all members |
| LeftHandSideTypes.GetTypeInterfaces | src/main/java/com/laytonsmith/core/constructs/LeftHandSideType.java:200-216 | the method returns TypeInterfaces: the interfaces that every member declares |
| LeftHandSideTypes.TypeInterfacesIgnoreOrder | src/main/java/com/laytonsmith/core/constructs/LeftHandSideType.java:200-216 | the interfaces depend only on the set of members, not on their order or repetition |
| LeftHandSideTypes.MergedInterfaces | src/main/java/com/laytonsmith/core/constructs/LeftHandSideType.java:200-216 | a type holding exactly the inputs' members (as fromTypeUnion builds) has exactly the interfaces that every input has |
| LeftHandSideTypes.TypeSuperclasses | src/main/java/com/laytonsmith/core/constructs/LeftHandSideType.java:225-241 | as written: a union gives the superclasses every member declares, but a single type gives its interfaces |
| LeftHandSideTypes.GetTypeSuperclasses | src/main/java/com/laytonsmith/core/constructs/LeftHandSideType.java:225-241 | the method returns TypeSuperclasses, as written |
| LeftHandSideTypes.TypeSuperclassesIntended | src/main/java/com/laytonsmith/core/constructs/LeftHandSideType.java:218-241 | as documented: x is included iff every member, single types included, declares x as a superclass |
| LeftHandSideTypes.SuperclassesOfSingleType | src/main/java/com/laytonsmith/core/constructs/LeftHandSideType.java:225-228 | for a single type, the as-written query gives its interfaces and the documented one its superclasses |
| LeftHandSideTypes.SuperclassesCounterexample | src/main/java/com/laytonsmith/core/constructs/LeftHandSideType.java:225-228 | `int` with no interfaces and superclass `mixed`: the as-written query gives {} and the documented one {mixed} |
| LeftHandSideTypes.CannotUseMessageNamesType | src/main/java/com/laytonsmith/core/constructs/LeftHandSideType.java:270 | equal messages come from equal simple names, so the message identifies the rejected type |
| LeftHandSideTypes.AsConcreteType | src/main/java/com/laytonsmith/core/constructs/LeftHandSideType.java:269-279 | as written: succeeds iff the type is a union whose first member has no generics, and then returns that member's class type; otherwise CREIllegalArgumentException with the "Cannot use the type" message |
| LeftHandSideTypes.AsConcreteTypeRejectsSingleTypes | src/main/java/com/laytonsmith/core/constructs/LeftHandSideType.java:269-273 | as written, a type built from a class type never converts back to it |
| LeftHandSideTypes.AsConcreteTypeIntended | src/main/java/com/laytonsmith/core/constructs/LeftHandSideType.java:259-279 | as documented: succeeds iff the type is one member without generics, and then the type is exactly that class type |
| LeftHandSideTypes.AsConcreteTypeRoundTrip | src/main/java/com/laytonsmith/core/constructs/LeftHandSideType.java:259-268 | the documented round trip: asConcreteType(fromCClassType(c)) == c |

## Left out

- Node mutation and aliasing. Parse-tree nodes are values. `addChild` on the node stored in the list becomes a replacement of that list element, so sharing of node objects between the list and other holders is not modelled.
- The `Keyword` base-class helpers `validateCodeBlock`, `isValidCodeBlock` and `getArgumentOrNull` are parameters, because their code is not part of this model. `validateCodeBlock` returns the exception it would throw, or nothing.
- `NodeModifiers.merge` is not part of this model. It is modelled as set union of the modifiers.
- Parse-tree and `FileOptions` internals are kept abstract. A node has a kind tag, a value, a target, options, modifiers, a synthetic flag and children.
- Process: `keywordPosition` is required to be inside the list. The source reads `list.get(keywordPosition)` first and would throw IndexOutOfBoundsException otherwise.
- Expand: the `instanceof` tests for `CKeyword`, `CFunction` and `CBareString` (ProcKeyword.java lines 27, 33 and 63) are modelled as mutually exclusive node kinds. The class hierarchy of those constructs is not part of this model. If `CKeyword` were a subclass of `CBareString`, Java would turn `proc` followed by another keyword into `get_proc`, where the model reports an unexpected use.
- IsAuto: the constructor tests `Auto.TYPE` (LeftHandSideType.java line 143) and `isAuto` tests `CClassType.AUTO` (line 300). The model treats both as the one class type `auto`. The equivalence "isAuto iff `auto` occurs at all" depends on that.
- Null arguments (`Objects.requireNonNull`, null class types) are not modelled. Every input is a value.
- The environment's class lookups and the printing of class types and generics are parameters: `Environment`, and `Naming` for `getSimpleName`, `toString` and `toSimpleString`. Class types are identified by their FQCN only.
- GetTypeInterfaces: returns a set where the source returns an array. For a union the array is filled from a hash set, so its order is not modelled. For a single type the source returns the lookup's own array (line 202), and the order and any repeats in that array are not modelled either.
- GetTypeSuperclasses: returns a set where the source returns an array. For a union the array is filled from a hash set, so its order is not modelled. For a single type the source returns the lookup's own array (line 227), and the order and any repeats in that array are not modelled either.
- FromTypeUnion: the member order comes from hash-set iteration, which the source leaves unspecified. The model picks an arbitrary order, and its contract speaks only of the members and their multiplicity.
- GetTypes: has no contract of its own. Values are immutable, so the defensive copy needs no modelling. GetTypesRebuild states that the returned list determines the type.
- `isExtendedBy` and `doesExtend` only delegate to `CClassType.doesExtend`, which is not part of this model.
- GetCollapsedType: follows the code, which throws UnsupportedOperationException for every union. The nearest common supertype (join) that a collapse is meant to compute is not modelled.
- ExpandFunctionalUsage: follows the code. The functional branch does not check whether the `proc` call already has a body before absorbing a following block.
- `isDynamic`, `getObjectModifiers` and the other construct plumbing of LeftHandSideType are not modelled.
- src/main/java/com/laytonsmith/core/functions/Function.java, InventoryEvents.java, EventData.java and MustIncludeConstructor.java are not part of this model. They hold interfaces, host bindings, telemetry and an annotation, with no logic of the two components.

## Findings

| source | as written | input that shows it | evidently intended | confidence | as-written member | corrected member |
|---|---|---|---|---|---|---|
| src/main/java/com/laytonsmith/core/constructs/LeftHandSideType.java:271 | `asConcreteType` throws when the type is NOT a union, and returns the first member of a union | `fromCClassType(int, t).asConcreteType(t)` throws; the union of `int` and `string` yields `int` | succeed exactly for a single member without generics, so that fromCClassType round-trips (doc comment, lines 259-265) | high, not executed | LeftHandSideTypes.AsConcreteTypeRejectsSingleTypes | LeftHandSideTypes.AsConcreteTypeIntended |
| src/main/java/com/laytonsmith/core/constructs/LeftHandSideType.java:227 | the single-type branch of `getTypeSuperclasses` returns the type's interfaces | `int` with interfaces {} and superclasses {mixed} gives {} | return the type's superclasses (doc comment, lines 218-220) | high, not executed | LeftHandSideTypes.SuperclassesCounterexample | LeftHandSideTypes.TypeSuperclassesIntended |
