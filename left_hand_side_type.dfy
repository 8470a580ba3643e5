/**
 * LeftHandSideType: the type written on the left of a declaration, for a
 * parameter or as a return type. It is an immutable, non-empty list of members
 * (a class type paired with optional generics). More than one member makes a
 * type union, and a union may not contain `auto` or `void`.
 */
module LeftHandSideTypes {
  import opened Wrappers
  import opened Ast

  /** A (right hand side) class type, identified by its fully qualified class name. */
  datatype CClassType = CClassType(fqcn: string)

  /** The `auto` type (Auto.TYPE, also CClassType.AUTO). */
  const AUTO: CClassType := CClassType("auto")
  /** The `void` type (CVoid.TYPE). */
  const VOID: CClassType := CClassType("void")

  /** A generic-parameter declaration such as `? extends number`; its structure is not modelled. */
  datatype LeftHandGenericUse = LeftHandGenericUse(declaration: string)

  /** One member of a left hand side type: Pair<CClassType, LeftHandGenericUse>, generics possibly null. */
  datatype Member = Member(classType: CClassType, generics: Option<LeftHandGenericUse>)

  /** The value: the member list (in construction order) and the code target. */
  datatype LeftHandSideType = LeftHandSideType(types: seq<Member>, target: Target)

  /** The exceptions the class throws. */
  datatype TypeError =
    | IllegalArgumentException(message: string)
    | CREIllegalArgumentException(message: string, target: Target)
    | UnsupportedOperationException(message: string)

  const EMPTY_TYPES: string := "A LeftHandSideType object must contain at least one type"
  const AUTO_IN_UNION: string := "auto type cannot be used in a type union"
  const VOID_IN_UNION: string := "void type cannot be used in a type union"
  const NOT_YET_SUPPORTED: string := "Not yet supported"
  const SEPARATOR: string := " | "
  const CANNOT_USE_PREFIX: string := "Cannot use the type \""
  const CANNOT_USE_SUFFIX: string := "\" in this context."

  /** The environment's class lookups: a type's declared interfaces and superclasses. */
  datatype Environment = Environment(
    interfaces: CClassType -> set<CClassType>,
    superclasses: CClassType -> set<CClassType>)

  /** How class types and generics print: CClassType.getSimpleName, LeftHandGenericUse.toString and toSimpleString. */
  datatype Naming = Naming(
    simpleName: CClassType -> string,
    genericsString: LeftHandGenericUse -> string,
    genericsSimpleString: LeftHandGenericUse -> string)

  /** The types that may stand only alone, never in a union. */
  predicate BarredFromUnion(c: CClassType) {
    c == AUTO || c == VOID
  }

  /** The construction rules: at least one member, and no auto or void in a union. */
  ghost predicate ValidMembers(ms: seq<Member>) {
    && |ms| >= 1
    && (|ms| > 1 ==> forall k :: 0 <= k < |ms| ==> !BarredFromUnion(ms[k].classType))
  }

  /** Every constructed LeftHandSideType satisfies the construction rules. */
  ghost predicate Valid(l: LeftHandSideType) {
    ValidMembers(l.types)
  }

  // ---------------------------------------------------------------- construction

  /** The index of the first member that is auto or void, or |ms| if there is none. */
  function FirstBarred(ms: seq<Member>): (k: nat)
    ensures k <= |ms|
    ensures forall j :: 0 <= j < k ==> !BarredFromUnion(ms[j].classType)
    ensures k < |ms| ==> BarredFromUnion(ms[k].classType)
  {
    if ms == [] || BarredFromUnion(ms[0].classType) then 0 else 1 + FirstBarred(ms[1..])
  }

  /** The exception for an auto or void member found in a union. */
  function BarredMemberError(c: CClassType, t: Target): (e: TypeError)
    ensures e.CREIllegalArgumentException? && e.target == t
    ensures c == AUTO ==> e.message == AUTO_IN_UNION
    ensures c == VOID ==> e.message == VOID_IN_UNION
  {
    if c == AUTO then CREIllegalArgumentException(AUTO_IN_UNION, t)
    else CREIllegalArgumentException(VOID_IN_UNION, t)
  }

  /**
   * fromCClassTypeUnion(t, List<Pair>): the base factory. Empty input is an
   * IllegalArgumentException; a union with auto or void is a
   * CREIllegalArgumentException naming the first such member; otherwise the
   * members are kept exactly as given, in order.
   */
  function FromCClassTypeUnion(t: Target, classTypes: seq<Member>): (r: Result<LeftHandSideType, TypeError>)
    ensures r.Success? <==> ValidMembers(classTypes)
    ensures r.Success? ==> r.value.types == classTypes && r.value.target == t && Valid(r.value)
    ensures classTypes == [] ==> r == Failure(IllegalArgumentException(EMPTY_TYPES))
    ensures r.Failure? && classTypes != [] ==>
      exists k :: 0 <= k < |classTypes| && BarredFromUnion(classTypes[k].classType)
                  && (forall j :: 0 <= j < k ==> !BarredFromUnion(classTypes[j].classType))
                  && r.error == BarredMemberError(classTypes[k].classType, t)
  {
    if classTypes == [] then
      Failure(IllegalArgumentException(EMPTY_TYPES))
    else if |classTypes| > 1 && FirstBarred(classTypes) < |classTypes| then
      Failure(BarredMemberError(classTypes[FirstBarred(classTypes)].classType, t))
    else
      Success(LeftHandSideType(classTypes, t))
  }

  /** fromCClassType(classType, generics, t): a single member; never fails, even for auto or void. */
  function FromCClassTypeWithGenerics(classType: CClassType, generics: Option<LeftHandGenericUse>, t: Target): (r: LeftHandSideType)
    ensures Valid(r) && r.types == [Member(classType, generics)] && r.target == t
  {
    FromCClassTypeUnion(t, [Member(classType, generics)]).value
  }

  /** fromCClassType(classType, t): a single member without generics; never fails. */
  function FromCClassType(classType: CClassType, t: Target): (r: LeftHandSideType)
    ensures Valid(r) && r.types == [Member(classType, None)] && r.target == t
  {
    FromCClassTypeUnion(t, [Member(classType, None)]).value
  }

  /** fromHardCodedType(type): fromCClassType with an unknown target. */
  function FromHardCodedType(classType: CClassType): (r: LeftHandSideType)
    ensures Valid(r) && r.types == [Member(classType, None)] && r.target == Unknown
  {
    FromCClassType(classType, Unknown)
  }

  /** The members that fromCClassTypeUnion(t, CClassType...) builds: each type with null generics. */
  function WithoutGenerics(classTypes: seq<CClassType>): seq<Member> {
    seq(|classTypes|, k requires 0 <= k < |classTypes| => Member(classTypes[k], None))
  }

  /**
   * fromCClassTypeUnion(t, CClassType...): pairs each type with null generics,
   * in the given order (no deduplication), then applies the base factory.
   */
  method FromCClassTypes(t: Target, classTypes: seq<CClassType>) returns (r: Result<LeftHandSideType, TypeError>)
    ensures r == FromCClassTypeUnion(t, WithoutGenerics(classTypes))
    ensures r.Success? <==>
      |classTypes| >= 1 && (|classTypes| > 1 ==> forall k :: 0 <= k < |classTypes| ==> !BarredFromUnion(classTypes[k]))
    ensures r.Success? ==>
      && |r.value.types| == |classTypes|
      && (forall k :: 0 <= k < |classTypes| ==> r.value.types[k] == Member(classTypes[k], None))
  {
    var pairs: seq<Member> := [];
    for k := 0 to |classTypes|
      invariant |pairs| == k
      invariant forall j :: 0 <= j < k ==> pairs[j] == Member(classTypes[j], None)
    {
      pairs := pairs + [Member(classTypes[k], None)];
    }
    assert pairs == WithoutGenerics(classTypes);
    r := FromCClassTypeUnion(t, pairs);
  }

  /** getTypes(): the member list (a copy, so the value never changes after construction). */
  function GetTypes(l: LeftHandSideType): seq<Member> {
    l.types
  }

  /** The list getTypes hands out loses nothing: the base factory rebuilds the very same type from it. */
  lemma GetTypesRebuild(l: LeftHandSideType)
    requires Valid(l)
    ensures FromCClassTypeUnion(l.target, GetTypes(l)) == Success(l)
  {
  }

  /** The distinct members of a list. */
  function Elements(ms: seq<Member>): set<Member> {
    set m | m in ms
  }

  /** No member occurs twice. */
  predicate Distinct(ms: seq<Member>) {
    forall j, k :: 0 <= j < k < |ms| ==> ms[j] != ms[k]
  }

  /** A list without repetitions has as many distinct members as entries. */
  lemma {:induction false} DistinctCardinality(ms: seq<Member>)
    requires Distinct(ms)
    ensures |Elements(ms)| == |ms|
  {
    if ms != [] {
      DistinctCardinality(ms[1..]);
      assert Elements(ms) == {ms[0]} + Elements(ms[1..]);
      assert ms[0] !in Elements(ms[1..]);
    }
  }

  /** The set-union of the members of all the given types. */
  function AllMembers(unions: seq<LeftHandSideType>): (s: set<Member>)
    ensures forall m :: m in s <==> exists k :: 0 <= k < |unions| && m in unions[k].types
  {
    set k, m | 0 <= k < |unions| && m in unions[k].types :: m
  }

  /** Adding one more type adds exactly its members. */
  lemma AllMembersAppend(unions: seq<LeftHandSideType>, l: LeftHandSideType)
    ensures AllMembers(unions + [l]) == AllMembers(unions) + Elements(l.types)
  {
    var us := unions + [l];
    forall m | m in AllMembers(us) ensures m in AllMembers(unions) + Elements(l.types) {
      var k :| 0 <= k < |us| && m in us[k].types;
      if k < |unions| {
        assert us[k] == unions[k];
      }
    }
    forall m | m in AllMembers(unions) ensures m in AllMembers(us) {
      var k :| 0 <= k < |unions| && m in unions[k].types;
      assert us[k] == unions[k];
    }
    assert l == us[|unions|];
  }

  /** The construction rules stated on a set of members. */
  ghost predicate ValidMemberSet(s: set<Member>) {
    && |s| >= 1
    && (|s| > 1 ==> forall m :: m in s ==> !BarredFromUnion(m.classType))
  }

  /** The hash set filled by fromTypeUnion: every member of every input, added input by input. */
  method CollectMembers(unions: seq<LeftHandSideType>) returns (members: set<Member>)
    ensures members == AllMembers(unions)
  {
    members := {};
    for k := 0 to |unions|
      invariant members == AllMembers(unions[..k])
    {
      members := members + Elements(GetTypes(unions[k]));
      AllMembersAppend(unions[..k], unions[k]);
      assert unions[..k + 1] == unions[..k] + [unions[k]];
    }
    assert unions[..|unions|] == unions;
  }

  /** `new ArrayList<>(set)`: each element once, in the set's (unspecified) iteration order. */
  method ListOf(members: set<Member>) returns (list: seq<Member>)
    ensures Distinct(list) && Elements(list) == members && |list| == |members|
  {
    list := [];
    var rest := members;
    while rest != {}
      invariant rest <= members
      invariant Elements(list) + rest == members
      invariant Elements(list) !! rest
      invariant Distinct(list)
      decreases |rest|
    {
      var m :| m in rest;
      list := list + [m];
      rest := rest - {m};
    }
    DistinctCardinality(list);
  }

  /** The rules on a list without repetitions are the rules on its set of members. */
  lemma DistinctValidMembers(list: seq<Member>)
    requires Distinct(list)
    ensures ValidMembers(list) <==> ValidMemberSet(Elements(list))
  {
    DistinctCardinality(list);
    if |list| > 1 && (forall k :: 0 <= k < |list| ==> !BarredFromUnion(list[k].classType)) {
      forall m | m in Elements(list) ensures !BarredFromUnion(m.classType) {
        var k :| 0 <= k < |list| && list[k] == m;
      }
    }
  }

  /**
   * fromTypeUnion(t, types...): collects the members of all inputs in a hash
   * set and builds a type from them. The result holds each distinct member of
   * the inputs exactly once, in an unspecified order; a member with generics
   * and the same class without them are distinct. It fails exactly when the
   * base factory rejects that set.
   */
  method FromTypeUnion(t: Target, unions: seq<LeftHandSideType>) returns (r: Result<LeftHandSideType, TypeError>)
    ensures r.Success? <==> ValidMemberSet(AllMembers(unions))
    ensures r.Success? ==>
      Distinct(r.value.types) && Elements(r.value.types) == AllMembers(unions) && r.value.target == t
    ensures r.Success? ==> Valid(r.value)
    ensures AllMembers(unions) == {} ==> r == Failure(IllegalArgumentException(EMPTY_TYPES))
    ensures r.Failure? && AllMembers(unions) != {} ==> r.error.CREIllegalArgumentException? && r.error.target == t
  {
    var members := CollectMembers(unions);
    var list := ListOf(members);
    DistinctValidMembers(list);
    r := FromCClassTypeUnion(t, list);
  }

  // ---------------------------------------------------------------- queries

  /** isTypeUnion(): more than one member; a valid union then holds neither auto nor void. */
  predicate IsTypeUnion(l: LeftHandSideType)
    ensures IsTypeUnion(l) <==> |l.types| > 1
    ensures Valid(l) && IsTypeUnion(l) ==> forall k :: 0 <= k < |l.types| ==> !BarredFromUnion(l.types[k].classType)
  {
    |l.types| > 1
  }

  /** isVoid(): void can only ever be the sole member, so this holds iff void occurs at all. */
  predicate IsVoid(l: LeftHandSideType)
    requires Valid(l)
    ensures IsVoid(l) <==> |l.types| == 1 && l.types[0].classType == VOID
    ensures IsVoid(l) <==> exists k :: 0 <= k < |l.types| && l.types[k].classType == VOID
    ensures IsVoid(l) ==> !IsTypeUnion(l)
  {
    if IsTypeUnion(l) then false else l.types[0].classType == VOID
  }

  /** isAuto(): auto can only ever be the sole member, so this holds iff auto occurs at all. */
  predicate IsAuto(l: LeftHandSideType)
    requires Valid(l)
    ensures IsAuto(l) <==> |l.types| == 1 && l.types[0].classType == AUTO
    ensures IsAuto(l) <==> exists k :: 0 <= k < |l.types| && l.types[k].classType == AUTO
    ensures IsAuto(l) ==> !IsTypeUnion(l)
  {
    if IsTypeUnion(l) then false else l.types[0].classType == AUTO
  }

  /** getCollapsedType(): a single type is its own collapse; unions are not supported yet. */
  function GetCollapsedType(l: LeftHandSideType): (r: Result<LeftHandSideType, TypeError>)
    ensures r.Success? <==> !IsTypeUnion(l)
    ensures r.Success? ==> r.value == l && !IsTypeUnion(r.value)
    ensures r.Failure? ==> r.error == UnsupportedOperationException(NOT_YET_SUPPORTED)
  {
    if !IsTypeUnion(l) then Success(l) else Failure(UnsupportedOperationException(NOT_YET_SUPPORTED))
  }

  // ---------------------------------------------------------------- display

  /** StringUtils.Join: the parts with `sep` between consecutive parts. */
  function Join(parts: seq<string>, sep: string): string {
    if |parts| == 0 then ""
    else if |parts| == 1 then parts[0]
    else parts[0] + sep + Join(parts[1..], sep)
  }

  /** How the stored value shows one member: its FQCN, then `<generics>` when generics are present. */
  function MemberValue(m: Member, names: Naming): string {
    m.classType.fqcn + (if m.generics.Some? then "<" + names.genericsString(m.generics.value) + ">" else "")
  }

  /** How getSimpleName shows one member: the simple name, then `<generics>` in simple form. */
  function MemberSimpleName(m: Member, names: Naming): string {
    names.simpleName(m.classType)
      + (if m.generics.Some? then "<" + names.genericsSimpleString(m.generics.value) + ">" else "")
  }

  /** Each member's printed form, in member order. */
  function MemberValues(ms: seq<Member>, names: Naming): seq<string> {
    seq(|ms|, k requires 0 <= k < |ms| => MemberValue(ms[k], names))
  }

  /** The construct's value string: the members joined by " | ". */
  function Value(l: LeftHandSideType, names: Naming): (r: string)
    ensures |l.types| == 1 ==> r == MemberValue(l.types[0], names)
    ensures |l.types| > 1 ==> MemberValue(l.types[0], names) + SEPARATOR <= r
  {
    Join(MemberValues(l.types, names), SEPARATOR)
  }

  /** Each member's simple printed form, in member order. */
  function MemberSimpleNames(ms: seq<Member>, names: Naming): seq<string> {
    seq(|ms|, k requires 0 <= k < |ms| => MemberSimpleName(ms[k], names))
  }

  /** getSimpleName(): the members' simple names joined by " | ". */
  function SimpleName(l: LeftHandSideType, names: Naming): (r: string)
    ensures |l.types| == 1 ==> r == MemberSimpleName(l.types[0], names)
    ensures |l.types| > 1 ==> MemberSimpleName(l.types[0], names) + SEPARATOR <= r
  {
    Join(MemberSimpleNames(l.types, names), SEPARATOR)
  }

  /** The string contains no `|`. */
  predicate NoBar(s: string) {
    forall k :: 0 <= k < |s| ==> s[k] != '|'
  }

  /** The index of the first `|` in s, or |s| when there is none. */
  function BarIndex(s: string): (k: nat)
    ensures k <= |s| && NoBar(s[..k]) && (k < |s| ==> s[k] == '|')
  {
    if s == [] then 0 else if s[0] == '|' then 0 else 1 + BarIndex(s[1..])
  }

  /** The first `|` of a joined string ends its first part, and there is none when there is one part. */
  lemma JoinBarIndex(xs: seq<string>)
    requires |xs| >= 1 && forall k :: 0 <= k < |xs| ==> NoBar(xs[k])
    ensures |xs| == 1 ==> BarIndex(Join(xs, SEPARATOR)) == |Join(xs, SEPARATOR)|
    ensures |xs| > 1 ==> BarIndex(Join(xs, SEPARATOR)) == |xs[0]| + 1 < |Join(xs, SEPARATOR)|
  {
    var s := Join(xs, SEPARATOR);
    var b := BarIndex(s);
    if |xs| == 1 {
      assert NoBar(s[..|s|]);
    } else {
      assert s == xs[0] + SEPARATOR + Join(xs[1..], SEPARATOR);
      assert s[|xs[0]| + 1] == '|';
      assert NoBar(s[..|xs[0]| + 1]) by {
        assert s[..|xs[0]| + 1] == xs[0] + " ";
      }
    }
  }

  /** Joining with " | " parts that contain no `|` loses nothing: the parts can be read back. */
  lemma {:induction false} JoinInjective(xs: seq<string>, ys: seq<string>)
    requires |xs| >= 1 && |ys| >= 1
    requires forall k :: 0 <= k < |xs| ==> NoBar(xs[k])
    requires forall k :: 0 <= k < |ys| ==> NoBar(ys[k])
    ensures Join(xs, SEPARATOR) == Join(ys, SEPARATOR) ==> xs == ys
  {
    var s := Join(xs, SEPARATOR);
    if s == Join(ys, SEPARATOR) {
      JoinBarIndex(xs);
      JoinBarIndex(ys);
      if |xs| == 1 {
        assert |ys| == 1;
      } else {
        assert |ys| > 1 && |xs[0]| == |ys[0]|;
        var n := |xs[0]|;
        assert s == xs[0] + SEPARATOR + Join(xs[1..], SEPARATOR);
        assert s == ys[0] + SEPARATOR + Join(ys[1..], SEPARATOR);
        assert xs[0] == s[..n] == ys[0];
        assert Join(xs[1..], SEPARATOR) == s[n + 3..] == Join(ys[1..], SEPARATOR);
        JoinInjective(xs[1..], ys[1..]);
        assert xs == [xs[0]] + xs[1..];
        assert ys == [ys[0]] + ys[1..];
      }
    }
  }

  /** The value of a type made from one class type without generics is that type's FQCN. */
  lemma ValueOfSingleType(c: CClassType, t: Target, names: Naming)
    ensures Value(FromCClassType(c, t), names) == c.fqcn
  {
  }

  /**
   * The value lists every member: for types whose members' printed forms
   * contain no `|`, equal values mean equal lists of printed forms.
   */
  lemma ValueListsMembers(l1: LeftHandSideType, l2: LeftHandSideType, names: Naming)
    requires Valid(l1) && Valid(l2)
    requires forall k :: 0 <= k < |l1.types| ==> NoBar(MemberValue(l1.types[k], names))
    requires forall k :: 0 <= k < |l2.types| ==> NoBar(MemberValue(l2.types[k], names))
    ensures Value(l1, names) == Value(l2, names) ==> MemberValues(l1.types, names) == MemberValues(l2.types, names)
  {
    JoinInjective(MemberValues(l1.types, names), MemberValues(l2.types, names));
  }

  /** The simple name of a type made from one class type without generics is that type's simple name. */
  lemma SimpleNameOfSingleType(c: CClassType, t: Target, names: Naming)
    ensures SimpleName(FromCClassType(c, t), names) == names.simpleName(c)
  {
  }

  /**
   * The simple name lists every member: for types whose members' simple forms
   * contain no `|`, equal simple names mean equal lists of simple forms.
   */
  lemma SimpleNameListsMembers(l1: LeftHandSideType, l2: LeftHandSideType, names: Naming)
    requires Valid(l1) && Valid(l2)
    requires forall k :: 0 <= k < |l1.types| ==> NoBar(MemberSimpleName(l1.types[k], names))
    requires forall k :: 0 <= k < |l2.types| ==> NoBar(MemberSimpleName(l2.types[k], names))
    ensures SimpleName(l1, names) == SimpleName(l2, names) ==>
      MemberSimpleNames(l1.types, names) == MemberSimpleNames(l2.types, names)
  {
    JoinInjective(MemberSimpleNames(l1.types, names), MemberSimpleNames(l2.types, names));
  }

  /**
   * Display order follows member order: the same two members (whose printed
   * forms differ and contain no `|`) in opposite orders print differently.
   */
  lemma DisplayDependsOnOrder(a: Member, b: Member, t: Target, names: Naming)
    requires NoBar(MemberValue(a, names)) && NoBar(MemberValue(b, names))
    requires MemberValue(a, names) != MemberValue(b, names)
    ensures Value(LeftHandSideType([a, b], t), names) != Value(LeftHandSideType([b, a], t), names)
  {
    var ab := [MemberValue(a, names), MemberValue(b, names)];
    var ba := [MemberValue(b, names), MemberValue(a, names)];
    assert MemberValues([a, b], names) == ab;
    assert MemberValues([b, a], names) == ba;
    assert ab[0] != ba[0];
    JoinInjective(ab, ba);
  }

  // ---------------------------------------------------------------- interfaces and superclasses

  /** `seed` with everything removed that some member's lookup `f` lacks. */
  function Meet(seed: set<CClassType>, ms: seq<Member>, f: CClassType -> set<CClassType>): (r: set<CClassType>)
    ensures forall x :: x in r <==> x in seed && forall k :: 0 <= k < |ms| ==> x in f(ms[k].classType)
    decreases |ms|
  {
    if ms == [] then seed
    else
      var last := |ms| - 1;
      assert forall k :: 0 <= k < last ==> ms[..last][k] == ms[k];
      Meet(seed, ms[..last], f) * f(ms[last].classType)
  }

  /**
   * getTypeInterfaces(env), as a value: for a single type its declared
   * interfaces; for a union the interfaces every member declares.
   */
  function TypeInterfaces(l: LeftHandSideType, env: Environment): (r: set<CClassType>)
    requires Valid(l)
    ensures !IsTypeUnion(l) ==> r == env.interfaces(l.types[0].classType)
    ensures forall x :: x in r <==> forall k :: 0 <= k < |l.types| ==> x in env.interfaces(l.types[k].classType)
  {
    if !IsTypeUnion(l) then env.interfaces(l.types[0].classType)
    else Meet(env.interfaces(l.types[0].classType), l.types, env.interfaces)
  }

  /**
   * getTypeSuperclasses(env) as written: for a union the superclasses every
   * member declares, but for a single type its INTERFACES.
   */
  function TypeSuperclasses(l: LeftHandSideType, env: Environment): (r: set<CClassType>)
    requires Valid(l)
    ensures !IsTypeUnion(l) ==> r == env.interfaces(l.types[0].classType)
    ensures IsTypeUnion(l) ==>
      forall x :: x in r <==> forall k :: 0 <= k < |l.types| ==> x in env.superclasses(l.types[k].classType)
  {
    if !IsTypeUnion(l) then env.interfaces(l.types[0].classType)
    else Meet(env.superclasses(l.types[0].classType), l.types, env.superclasses)
  }

  /** getTypeSuperclasses(env) as documented: the superclasses every member declares, single types included. */
  function TypeSuperclassesIntended(l: LeftHandSideType, env: Environment): (r: set<CClassType>)
    requires Valid(l)
    ensures !IsTypeUnion(l) ==> r == env.superclasses(l.types[0].classType)
    ensures forall x :: x in r <==> forall k :: 0 <= k < |l.types| ==> x in env.superclasses(l.types[k].classType)
  {
    if !IsTypeUnion(l) then env.superclasses(l.types[0].classType)
    else Meet(env.superclasses(l.types[0].classType), l.types, env.superclasses)
  }

  /**
   * One pruning pass: walk the set with its iterator and remove every element
   * that is not in `declared`.
   */
  method RetainDeclared(current: set<CClassType>, declared: set<CClassType>) returns (result: set<CClassType>)
    ensures result == current * declared
  {
    result := current;
    var it := current;
    while it != {}
      invariant it <= current
      invariant result == it + (current - it) * declared
      decreases |it|
    {
      var x :| x in it;
      it := it - {x};
      if x !in declared {
        result := result - {x};
      }
    }
  }

  /**
   * The pruning loop shared by getTypeInterfaces and getTypeSuperclasses: seed
   * a set with the first member's lookup, then for each member remove every
   * element that member's lookup lacks.
   */
  method CommonToAll(ms: seq<Member>, f: CClassType -> set<CClassType>) returns (result: set<CClassType>)
    requires |ms| > 0
    ensures result == Meet(f(ms[0].classType), ms, f)
  {
    var seed := f(ms[0].classType);
    result := seed;
    for k := 0 to |ms|
      invariant result == Meet(seed, ms[..k], f)
    {
      result := RetainDeclared(result, f(ms[k].classType));
      assert ms[..k + 1][..k] == ms[..k];
    }
    assert ms[..|ms|] == ms;
  }

  /** getTypeInterfaces(env). */
  method GetTypeInterfaces(l: LeftHandSideType, env: Environment) returns (r: set<CClassType>)
    requires Valid(l)
    ensures r == TypeInterfaces(l, env)
    ensures forall x :: x in r <==> forall k :: 0 <= k < |l.types| ==> x in env.interfaces(l.types[k].classType)
  {
    if !IsTypeUnion(l) {
      return env.interfaces(l.types[0].classType);
    }
    r := CommonToAll(GetTypes(l), env.interfaces);
  }

  /** getTypeSuperclasses(env), as written (see TypeSuperclasses). */
  method GetTypeSuperclasses(l: LeftHandSideType, env: Environment) returns (r: set<CClassType>)
    requires Valid(l)
    ensures r == TypeSuperclasses(l, env)
  {
    if !IsTypeUnion(l) {
      return env.interfaces(l.types[0].classType);
    }
    r := CommonToAll(GetTypes(l), env.superclasses);
  }

  /** The interfaces of a type depend only on its set of members, not on their order or repetition. */
  lemma TypeInterfacesIgnoreOrder(l1: LeftHandSideType, l2: LeftHandSideType, env: Environment)
    requires Valid(l1) && Valid(l2) && Elements(l1.types) == Elements(l2.types)
    ensures TypeInterfaces(l1, env) == TypeInterfaces(l2, env)
  {
    forall x | x in TypeInterfaces(l1, env) ensures x in TypeInterfaces(l2, env) {
      forall k | 0 <= k < |l2.types| ensures x in env.interfaces(l2.types[k].classType) {
        assert l2.types[k] in Elements(l1.types);
        var j :| 0 <= j < |l1.types| && l1.types[j] == l2.types[k];
      }
    }
    forall x | x in TypeInterfaces(l2, env) ensures x in TypeInterfaces(l1, env) {
      forall k | 0 <= k < |l1.types| ensures x in env.interfaces(l1.types[k].classType) {
        assert l1.types[k] in Elements(l2.types);
        var j :| 0 <= j < |l2.types| && l2.types[j] == l1.types[k];
      }
    }
  }

  /**
   * A type holding exactly the members of the inputs (as fromTypeUnion builds)
   * has as interfaces exactly those every input has.
   */
  lemma MergedInterfaces(unions: seq<LeftHandSideType>, l: LeftHandSideType, env: Environment)
    requires Valid(l) && forall k :: 0 <= k < |unions| ==> Valid(unions[k])
    requires Elements(l.types) == AllMembers(unions)
    ensures forall x :: x in TypeInterfaces(l, env) <==>
      forall k :: 0 <= k < |unions| ==> x in TypeInterfaces(unions[k], env)
  {
    forall x ensures x in TypeInterfaces(l, env) <==>
      forall k :: 0 <= k < |unions| ==> x in TypeInterfaces(unions[k], env)
    {
      MergedInterfacesAt(unions, l, env, x);
    }
  }

  /** MergedInterfaces for one candidate interface x. */
  lemma MergedInterfacesAt(unions: seq<LeftHandSideType>, l: LeftHandSideType, env: Environment, x: CClassType)
    requires Valid(l) && forall k :: 0 <= k < |unions| ==> Valid(unions[k])
    requires Elements(l.types) == AllMembers(unions)
    ensures x in TypeInterfaces(l, env) <==> forall k :: 0 <= k < |unions| ==> x in TypeInterfaces(unions[k], env)
  {
    if x in TypeInterfaces(l, env) {
      forall k | 0 <= k < |unions| ensures x in TypeInterfaces(unions[k], env) {
        forall j | 0 <= j < |unions[k].types| ensures x in env.interfaces(unions[k].types[j].classType) {
          assert unions[k].types[j] in AllMembers(unions);
          var i :| 0 <= i < |l.types| && l.types[i] == unions[k].types[j];
        }
      }
    } else {
      var i :| 0 <= i < |l.types| && x !in env.interfaces(l.types[i].classType);
      assert l.types[i] in AllMembers(unions);
      var k :| 0 <= k < |unions| && l.types[i] in unions[k].types;
      var j :| 0 <= j < |unions[k].types| && unions[k].types[j] == l.types[i];
      assert x !in TypeInterfaces(unions[k], env);
    }
  }

  /** Merging a lone void (or auto) with a type holding any other member is rejected. */
  lemma MergingBarredSingleFails(single: LeftHandSideType, other: LeftHandSideType, m: Member)
    requires |single.types| == 1 && BarredFromUnion(single.types[0].classType)
    requires m in other.types && m != single.types[0]
    ensures !ValidMemberSet(AllMembers([single, other]))
  {
    var s := AllMembers([single, other]);
    var b := single.types[0];
    assert [single, other][0] == single && [single, other][1] == other;
    assert b in s && m in s;
    assert {b, m} <= s;
    assert |{b, m}| == 2;
    assert |s| >= |{b, m}| by {
      assert s == {b, m} + (s - {b, m});
    }
  }

  // ---------------------------------------------------------------- asConcreteType

  /** The message of asConcreteType's exception. */
  function CannotUseMessage(l: LeftHandSideType, names: Naming): string {
    CANNOT_USE_PREFIX + SimpleName(l, names) + CANNOT_USE_SUFFIX
  }

  /** The message names the type: two types with different simple names get different messages. */
  lemma CannotUseMessageNamesType(l1: LeftHandSideType, l2: LeftHandSideType, names: Naming)
    ensures CannotUseMessage(l1, names) == CannotUseMessage(l2, names) ==> SimpleName(l1, names) == SimpleName(l2, names)
  {
    var m1, m2 := CannotUseMessage(l1, names), CannotUseMessage(l2, names);
    if m1 == m2 {
      assert SimpleName(l1, names) == m1[|CANNOT_USE_PREFIX|..|m1| - |CANNOT_USE_SUFFIX|];
    }
  }

  /**
   * asConcreteType(t) as written: every single type is rejected; a union
   * yields its first member's class type unless that member has generics.
   */
  function AsConcreteType(l: LeftHandSideType, t: Target, names: Naming): (r: Result<CClassType, TypeError>)
    requires Valid(l)
    ensures r.Success? <==> IsTypeUnion(l) && l.types[0].generics.None?
    ensures r.Success? ==> r.value == l.types[0].classType && r.value !in {AUTO, VOID}
    ensures r.Failure? ==> r.error == CREIllegalArgumentException(CannotUseMessage(l, names), t)
  {
    if !IsTypeUnion(l) then Failure(CREIllegalArgumentException(CannotUseMessage(l, names), t))
    else if l.types[0].generics.Some? then Failure(CREIllegalArgumentException(CannotUseMessage(l, names), t))
    else Success(l.types[0].classType)
  }

  /** As written, a type built from a class type never converts back to it. */
  lemma AsConcreteTypeRejectsSingleTypes(c: CClassType, t: Target, t': Target, names: Naming)
    ensures AsConcreteType(FromCClassType(c, t), t', names).Failure?
  {
  }

  /**
   * asConcreteType(t) as documented: succeeds exactly for a single member
   * without generics, and then returns that member's class type.
   */
  function AsConcreteTypeIntended(l: LeftHandSideType, t: Target, names: Naming): (r: Result<CClassType, TypeError>)
    requires Valid(l)
    ensures r.Success? <==> !IsTypeUnion(l) && l.types[0].generics.None?
    ensures r.Success? ==> l.types == [Member(r.value, None)]
    ensures r.Failure? ==> r.error == CREIllegalArgumentException(CannotUseMessage(l, names), t)
  {
    if IsTypeUnion(l) || l.types[0].generics.Some? then
      Failure(CREIllegalArgumentException(CannotUseMessage(l, names), t))
    else
      Success(l.types[0].classType)
  }

  /** The documented round trip: a class type made into a left hand side type converts back to itself. */
  lemma AsConcreteTypeRoundTrip(c: CClassType, t: Target, t': Target, names: Naming)
    ensures AsConcreteTypeIntended(FromCClassType(c, t), t', names) == Success(c)
  {
  }

  /** As written, a single type's superclasses are its interfaces, unlike the documented behaviour. */
  lemma SuperclassesOfSingleType(c: CClassType, t: Target, env: Environment)
    ensures TypeSuperclasses(FromCClassType(c, t), env) == env.interfaces(c)
    ensures TypeSuperclassesIntended(FromCClassType(c, t), env) == env.superclasses(c)
  {
  }

  /** A concrete input on which the two differ: `int` with no interfaces and superclass `mixed`. */
  lemma SuperclassesCounterexample()
    ensures var env := Environment(c => {}, c => {CClassType("mixed")});
      var l := FromCClassType(CClassType("int"), Unknown);
      TypeSuperclasses(l, env) == {} && TypeSuperclassesIntended(l, env) == {CClassType("mixed")}
  {
  }
}
