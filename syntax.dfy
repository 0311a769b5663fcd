/** An abstract syntax for the parts of a C# syntax tree that the extractor
    reads. It stands for the tree the Roslyn parser builds; node classes
    become constructors, optional children become `Option`s, and node text
    the extractor only copies (`ToString()` of a type, an expression, a body)
    is kept as a string. The walks at the end play the role of
    `DescendantNodes()`: they list nodes in document order. */
module Syntax {
  import opened Wrappers

  /** The `SyntaxKind`s the extractor records or tests: those of type
      declaration nodes, of the target specifier node of an attribute list
      and of the keyword token inside that specifier. */
  datatype SyntaxKind =
    | ClassDeclaration
    | StructDeclaration
    | InterfaceDeclaration
    | EnumDeclaration
    | RecordDeclaration
    | RecordStructDeclaration
    | OtherTypeDeclaration(kindName: string)
    | AttributeTargetSpecifier
    | AssemblyKeyword
    | OtherTargetKeyword(keyword: string)

  /** The target specifier of an attribute list (`[assembly: ...]`). */
  datatype AttributeTarget = NoTarget | AssemblyTarget | OtherTarget(keyword: string)

  datatype Attribute = Attribute(name: string, argumentList: Option<seq<string>>)

  datatype AttributeList = AttributeList(target: AttributeTarget, attributes: seq<Attribute>)

  datatype Parameter = Parameter(
    attributeLists: seq<AttributeList>,
    parameterType: Option<string>,
    identifier: string,
    default: Option<string>)

  /** One declarator of a field statement (`x = 1` in `int x = 1, y;`). */
  datatype Variable = Variable(identifier: string, initializer: Option<string>)

  datatype AccessorKind = GetAccessor | SetAccessor | InitAccessor | AddAccessor | RemoveAccessor

  /** An accessor: a block body, an expression body (`get => x;`) or neither. */
  datatype Accessor = Accessor(
    attributeLists: seq<AttributeList>,
    kind: AccessorKind,
    body: Option<string>,
    expressionBody: Option<string>)

  datatype EnumMember = EnumMember(
    attributeLists: seq<AttributeList>,
    identifier: string,
    equalsValue: Option<string>)

  /** A member of a type declaration. `EventDecl` is an event with accessors
      (`event E X { add {} remove {} }`); an event field (`event E X;`), an
      indexer, an operator, a destructor and the like are `OtherMemberDecl`,
      which keeps only the attribute lists found inside it. */
  datatype MemberDecl =
    | FieldDecl(attributeLists: seq<AttributeList>, modifiers: seq<string>,
                fieldType: string, variables: seq<Variable>)
    | PropertyDecl(attributeLists: seq<AttributeList>, modifiers: seq<string>,
                   propertyType: string, identifier: string, accessorList: Option<seq<Accessor>>)
    | MethodDecl(attributeLists: seq<AttributeList>, modifiers: seq<string>,
                 returnType: string, identifier: string, parameters: seq<Parameter>,
                 body: Option<string>, expressionBody: Option<string>)
    | ConstructorDecl(attributeLists: seq<AttributeList>, modifiers: seq<string>,
                      identifier: string, parameters: seq<Parameter>,
                      body: Option<string>, expressionBody: Option<string>)
    | EventDecl(attributeLists: seq<AttributeList>, modifiers: seq<string>,
                eventType: string, identifier: string, accessors: seq<Accessor>)
    | NestedTypeDecl(decl: TypeDecl)
    | OtherMemberDecl(innerAttributeLists: seq<AttributeList>)

  /** A type declaration (`BaseTypeDeclarationSyntax`). `parameterList` is a
      primary-constructor parameter list (empty when absent). Any other kind
      of type declaration is `OtherTypeDecl`, keeping only the attribute lists
      found inside it. */
  datatype TypeDecl =
    | ClassDecl(attributeLists: seq<AttributeList>, modifiers: seq<string>, identifier: string,
                parameterList: seq<Parameter>, baseList: Option<seq<string>>, members: seq<MemberDecl>)
    | StructDecl(attributeLists: seq<AttributeList>, modifiers: seq<string>, identifier: string,
                 parameterList: seq<Parameter>, baseList: Option<seq<string>>, members: seq<MemberDecl>)
    | InterfaceDecl(attributeLists: seq<AttributeList>, modifiers: seq<string>, identifier: string,
                    baseList: Option<seq<string>>, members: seq<MemberDecl>)
    | RecordDecl(attributeLists: seq<AttributeList>, modifiers: seq<string>, identifier: string,
                 isRecordStruct: bool, parameterList: seq<Parameter>, baseList: Option<seq<string>>,
                 members: seq<MemberDecl>)
    | EnumDecl(attributeLists: seq<AttributeList>, modifiers: seq<string>, identifier: string,
               baseList: Option<seq<string>>, enumMembers: seq<EnumMember>)
    | OtherTypeDecl(kindName: string, identifier: string, innerAttributeLists: seq<AttributeList>)

  /** `using N;` (`name` is None for a using whose target has no name). */
  datatype UsingDirective = UsingDirective(name: Option<string>)

  /** What a compilation unit or a namespace may contain. Delegates and
      top-level statements are `OtherNamespaceMember`. */
  datatype NamespaceMember =
    | NamespaceDecl(name: string, usings: seq<UsingDirective>, members: seq<NamespaceMember>)
    | FileScopedNamespaceDecl(name: string, usings: seq<UsingDirective>, members: seq<NamespaceMember>)
    | TypeMember(decl: TypeDecl)
    | OtherNamespaceMember(innerAttributeLists: seq<AttributeList>)

  type BlockNamespace = m: NamespaceMember | m.NamespaceDecl? witness NamespaceDecl("", [], [])

  type FileScopedNamespace = m: NamespaceMember | m.FileScopedNamespaceDecl?
    witness FileScopedNamespaceDecl("", [], [])

  datatype CompilationUnit = CompilationUnit(
    usings: seq<UsingDirective>,
    attributeLists: seq<AttributeList>,
    members: seq<NamespaceMember>)

  /** `node.IsKind(kind)` on a node or token that may be absent: false when
      it is absent. */
  predicate IsKind(k: Option<SyntaxKind>, kind: SyntaxKind)
  {
    k == Some(kind)
  }

  /** The kind of `AttributeListSyntax.Target`: the target specifier node,
      which is absent when the list names no target. */
  function TargetKind(l: AttributeList): Option<SyntaxKind>
  {
    if l.target.NoTarget? then None else Some(AttributeTargetSpecifier)
  }

  /** The kind of `Target.Identifier`: the keyword token before the colon. */
  function TargetIdentifierKind(l: AttributeList): Option<SyntaxKind>
  {
    match l.target
    case NoTarget => None
    case AssemblyTarget => Some(AssemblyKeyword)
    case OtherTarget(k) => Some(OtherTargetKeyword(k))
  }

  function KindOf(t: TypeDecl): SyntaxKind
  {
    match t
    case ClassDecl(_, _, _, _, _, _) => ClassDeclaration
    case StructDecl(_, _, _, _, _, _) => StructDeclaration
    case InterfaceDecl(_, _, _, _, _) => InterfaceDeclaration
    case RecordDecl(_, _, _, isStruct, _, _, _) =>
      if isStruct then RecordStructDeclaration else RecordDeclaration
    case EnumDecl(_, _, _, _, _) => EnumDeclaration
    case OtherTypeDecl(k, _, _) => OtherTypeDeclaration(k)
  }

  // ---- Attribute lists below a node, in document order ----

  function ParameterLists(ps: seq<Parameter>): seq<AttributeList>
  {
    if ps == [] then [] else ParameterLists(ps[..|ps| - 1]) + ps[|ps| - 1].attributeLists
  }

  function AccessorLists(acc: seq<Accessor>): seq<AttributeList>
  {
    if acc == [] then [] else AccessorLists(acc[..|acc| - 1]) + acc[|acc| - 1].attributeLists
  }

  function EnumMemberLists(ems: seq<EnumMember>): seq<AttributeList>
  {
    if ems == [] then [] else EnumMemberLists(ems[..|ems| - 1]) + ems[|ems| - 1].attributeLists
  }

  /** The attribute lists of a member and of everything inside it. */
  function MemberAttributeLists(m: MemberDecl): seq<AttributeList>
  {
    match m
    case FieldDecl(als, _, _, _) => als
    case PropertyDecl(als, _, _, _, acc) => als + (if acc.Some? then AccessorLists(acc.value) else [])
    case MethodDecl(als, _, _, _, ps, _, _) => als + ParameterLists(ps)
    case ConstructorDecl(als, _, _, ps, _, _) => als + ParameterLists(ps)
    case EventDecl(als, _, _, _, acc) => als + AccessorLists(acc)
    case NestedTypeDecl(t) => TypeAttributeLists(t)
    case OtherMemberDecl(als) => als
  }

  function MembersAttributeLists(ms: seq<MemberDecl>): seq<AttributeList>
  {
    if ms == [] then [] else MembersAttributeLists(ms[..|ms| - 1]) + MemberAttributeLists(ms[|ms| - 1])
  }

  /** The attribute lists of a type declaration and of everything inside it. */
  function TypeAttributeLists(t: TypeDecl): seq<AttributeList>
  {
    match t
    case ClassDecl(als, _, _, ps, _, ms) => als + ParameterLists(ps) + MembersAttributeLists(ms)
    case StructDecl(als, _, _, ps, _, ms) => als + ParameterLists(ps) + MembersAttributeLists(ms)
    case InterfaceDecl(als, _, _, _, ms) => als + MembersAttributeLists(ms)
    case RecordDecl(als, _, _, _, ps, _, ms) => als + ParameterLists(ps) + MembersAttributeLists(ms)
    case EnumDecl(als, _, _, _, ems) => als + EnumMemberLists(ems)
    case OtherTypeDecl(_, _, als) => als
  }

  function NamespaceMemberLists(m: NamespaceMember): seq<AttributeList>
  {
    match m
    case NamespaceDecl(_, _, ms) => NamespaceMembersLists(ms)
    case FileScopedNamespaceDecl(_, _, ms) => NamespaceMembersLists(ms)
    case TypeMember(t) => TypeAttributeLists(t)
    case OtherNamespaceMember(als) => als
  }

  function NamespaceMembersLists(ms: seq<NamespaceMember>): seq<AttributeList>
  {
    if ms == [] then [] else NamespaceMembersLists(ms[..|ms| - 1]) + NamespaceMemberLists(ms[|ms| - 1])
  }

  /** Every attribute list of the file, in document order. */
  function AllAttributeLists(unit: CompilationUnit): seq<AttributeList>
  {
    unit.attributeLists + NamespaceMembersLists(unit.members)
  }

  // ---- Using directives and namespaces below a node, in document order ----

  function NamespaceMemberUsings(m: NamespaceMember): seq<UsingDirective>
  {
    match m
    case NamespaceDecl(_, us, ms) => us + NamespaceMembersUsings(ms)
    case FileScopedNamespaceDecl(_, us, ms) => us + NamespaceMembersUsings(ms)
    case TypeMember(_) => []
    case OtherNamespaceMember(_) => []
  }

  function NamespaceMembersUsings(ms: seq<NamespaceMember>): seq<UsingDirective>
  {
    if ms == [] then [] else NamespaceMembersUsings(ms[..|ms| - 1]) + NamespaceMemberUsings(ms[|ms| - 1])
  }

  function AllUsings(unit: CompilationUnit): seq<UsingDirective>
  {
    unit.usings + NamespaceMembersUsings(unit.members)
  }

  /** The block namespaces at and below `m`, outermost first. */
  function BlockNamespacesIn(m: NamespaceMember): seq<BlockNamespace>
  {
    match m
    case NamespaceDecl(_, _, ms) => [m] + BlockNamespaces(ms)
    case FileScopedNamespaceDecl(_, _, ms) => BlockNamespaces(ms)
    case TypeMember(_) => []
    case OtherNamespaceMember(_) => []
  }

  function BlockNamespaces(ms: seq<NamespaceMember>): seq<BlockNamespace>
  {
    if ms == [] then [] else BlockNamespaces(ms[..|ms| - 1]) + BlockNamespacesIn(ms[|ms| - 1])
  }

  /** The first file-scoped namespace at or below `m`, in document order. */
  function FirstFileScopedIn(m: NamespaceMember): Option<FileScopedNamespace>
  {
    match m
    case NamespaceDecl(_, _, ms) => FirstFileScoped(ms)
    case FileScopedNamespaceDecl(_, _, _) => Some(m)
    case TypeMember(_) => None
    case OtherNamespaceMember(_) => None
  }

  function FirstFileScoped(ms: seq<NamespaceMember>): Option<FileScopedNamespace>
  {
    if ms == [] then None
    else match FirstFileScopedIn(ms[0])
      case Some(f) => Some(f)
      case None => FirstFileScoped(ms[1..])
  }

  /** The type declarations directly among `ms` (those whose parent is the
      node holding `ms`). */
  function TypeDeclsIn(m: NamespaceMember): seq<TypeDecl>
  {
    if m.TypeMember? then [m.decl] else []
  }
}
