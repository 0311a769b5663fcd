/** The source model extractor
    (Core/DocumentationGenerator/CodeParsing/Analyzers/DotnetProjectAnalyzer.cs).
    The LINQ projections are functions; the loops that fill member lists, the
    namespace list and the file list are methods, each proved equal to the
    function that specifies it. Reading a file and parsing it are parameters:
    `read` stands for `File.ReadAllText` (which may throw), `parse` for
    `CSharpSyntaxTree.ParseText` (which always yields a tree). The project
    loop is stated for any per-file analysis `info`; `AnalyzeProject` runs
    it with `Analyzed(parse)`, the file info `AnalyzeFile` builds. */
module Analyzer {
  import opened Wrappers
  import opened Syntax
  import opened ProjectInfo
  import opened Seqs
  import ErrorRecord
  import ErrorTypes
  import Errors
  import Text
  import Paths

  // ---- Projections ----

  function OptionText(o: Option<string>): string
  {
    if o.Some? then o.value else ""
  }

  function ParseAttribute(a: Attribute): AttributeInfo
  {
    AttributeInfo(a.name, if a.argumentList.Some? then a.argumentList.value else [])
  }

  function ListAttributes(l: AttributeList): seq<AttributeInfo>
  {
    Map(ParseAttribute, l.attributes)
  }

  /** `ParseAttributes(node)` given the attribute lists below `node`: every
      attribute of every list, in document order. */
  function AttributesOf(lists: seq<AttributeList>): seq<AttributeInfo>
  {
    FlatMap(ListAttributes, lists)
  }

  function UsingName(u: UsingDirective): string
  {
    OptionText(u.name)
  }

  /** `GetUsings`: every using directive of the file, in document order. */
  function GetUsings(unit: CompilationUnit): seq<string>
  {
    Map(UsingName, AllUsings(unit))
  }

  /** The filter of `GetAssemblyAttributes` as the code writes it,
      `al.Target.IsKind(SyntaxKind.AssemblyKeyword)`: it tests the kind of
      the target specifier node, not that of its keyword token. */
  predicate IsAssemblyList(l: AttributeList)
  {
    IsKind(TargetKind(l), AssemblyKeyword)
  }

  /** `GetAssemblyAttributes`: the attributes of the lists that pass the
      filter above (none do; see `AnalyzerFacts.AssemblyAttributesAlwaysEmpty`). */
  function GetAssemblyAttributes(unit: CompilationUnit): seq<AttributeInfo>
  {
    AttributesOf(Filter(IsAssemblyList, AllAttributeLists(unit)))
  }

  /** The evidently intended filter: the target keyword is `assembly`
      (`al.Target?.Identifier.IsKind(SyntaxKind.AssemblyKeyword)`). */
  predicate TargetsAssembly(l: AttributeList)
  {
    IsKind(TargetIdentifierKind(l), AssemblyKeyword)
  }

  /** The attributes of every `[assembly: ...]` list, as intended. */
  function IntendedAssemblyAttributes(unit: CompilationUnit): seq<AttributeInfo>
  {
    AttributesOf(Filter(TargetsAssembly, AllAttributeLists(unit)))
  }

  function ParseParameter(p: Parameter): ParameterInfo
  {
    ParameterInfo(p.identifier, OptionText(p.parameterType), OptionText(p.default),
                  AttributesOf(p.attributeLists))
  }

  function ParseParameters(ps: seq<Parameter>): seq<ParameterInfo>
  {
    Map(ParseParameter, ps)
  }

  /** `ParseFields`: one field info per declared variable, in order. */
  function ParseFields(m: MemberDecl): (fs: seq<FieldInfo>)
    requires m.FieldDecl?
    ensures |fs| == |m.variables|
    ensures forall i :: 0 <= i < |fs| ==>
      && fs[i].name == m.variables[i].identifier
      && fs[i].initializer == OptionText(m.variables[i].initializer)
      && fs[i].fieldType == m.fieldType
      && fs[i].modifiers == m.modifiers
      && fs[i].attributes == AttributesOf(MemberAttributeLists(m))
  {
    var attrs := AttributesOf(MemberAttributeLists(m));
    Map((v: Variable) => FieldInfo(v.identifier, m.fieldType, m.modifiers, OptionText(v.initializer), attrs),
        m.variables)
  }

  /** `Accessors.FirstOrDefault(a => a.Kind() == k)`. */
  function FirstAccessor(acc: seq<Accessor>, k: AccessorKind): (r: Option<Accessor>)
    ensures r.Some? ==> r.value in acc && r.value.kind == k
    ensures r.None? ==> forall a :: a in acc ==> a.kind != k
  {
    if acc == [] then None
    else if acc[0].kind == k then Some(acc[0])
    else FirstAccessor(acc[1..], k)
  }

  /** The block body of the first accessor of kind `k`, or "" when there is
      no accessor list, no such accessor, or that accessor has no block body. */
  function AccessorBody(list: Option<seq<Accessor>>, k: AccessorKind): string
  {
    if list.None? then ""
    else match FirstAccessor(list.value, k)
      case None => ""
      case Some(a) => OptionText(a.body)
  }

  function ParseProperty(m: MemberDecl): PropertyInfo
    requires m.PropertyDecl?
  {
    PropertyInfo(m.identifier, m.propertyType, m.modifiers,
                 AccessorBody(m.accessorList, GetAccessor), AccessorBody(m.accessorList, SetAccessor),
                 AttributesOf(MemberAttributeLists(m)))
  }

  /** A method body is its block, else its expression body, else "". */
  function ParseMethod(m: MemberDecl): MethodInfo
    requires m.MethodDecl?
  {
    MethodInfo(m.identifier, m.returnType, m.modifiers, ParseParameters(m.parameters),
               if m.body.Some? then m.body.value else OptionText(m.expressionBody),
               AttributesOf(MemberAttributeLists(m)))
  }

  /** A constructor body is its block only. */
  function ParseConstructor(m: MemberDecl): ConstructorInfo
    requires m.ConstructorDecl?
  {
    ConstructorInfo(m.modifiers, ParseParameters(m.parameters), OptionText(m.body),
                    AttributesOf(MemberAttributeLists(m)))
  }

  function ParseEvent(m: MemberDecl): EventInfo
    requires m.EventDecl?
  {
    EventInfo(m.identifier, m.eventType, m.modifiers, AttributesOf(MemberAttributeLists(m)))
  }

  function BaseTypesOf(b: Option<seq<string>>): seq<string>
  {
    if b.Some? then b.value else []
  }

  function ParseEnumMember(e: EnumMember): EnumMemberInfo
  {
    EnumMemberInfo(e.identifier, OptionText(e.equalsValue))
  }

  function ParseEnum(t: TypeDecl): EnumInfo
    requires t.EnumDecl?
  {
    Enum(t.identifier, KindOf(t), AttributesOf(TypeAttributeLists(t)), t.modifiers,
         Map(ParseEnumMember, t.enumMembers))
  }

  // ---- What each member contributes to each list of its type ----

  function FieldsIn(m: MemberDecl): seq<FieldInfo>
  {
    if m.FieldDecl? then ParseFields(m) else []
  }

  function PropertiesIn(m: MemberDecl): seq<PropertyInfo>
  {
    if m.PropertyDecl? then [ParseProperty(m)] else []
  }

  function MethodsIn(m: MemberDecl): seq<MethodInfo>
  {
    if m.MethodDecl? then [ParseMethod(m)] else []
  }

  function ConstructorsIn(m: MemberDecl): seq<ConstructorInfo>
  {
    if m.ConstructorDecl? then [ParseConstructor(m)] else []
  }

  function EventsIn(m: MemberDecl): seq<EventInfo>
  {
    if m.EventDecl? then [ParseEvent(m)] else []
  }

  // ---- Specifications of the loop-based parsers ----

  function ClassInfoOf(t: TypeDecl): ClassInfo
    requires t.ClassDecl?
  {
    Class(t.identifier, KindOf(t), AttributesOf(TypeAttributeLists(t)), t.modifiers,
          BaseTypesOf(t.baseList), FlatMap(FieldsIn, t.members), FlatMap(PropertiesIn, t.members),
          FlatMap(MethodsIn, t.members), FlatMap(ConstructorsIn, t.members),
          FlatMap(EventsIn, t.members))
  }

  function RecordInfoOf(t: TypeDecl): RecordInfo
    requires t.RecordDecl?
  {
    Record(t.identifier, KindOf(t), AttributesOf(TypeAttributeLists(t)), t.modifiers,
           BaseTypesOf(t.baseList), FlatMap(FieldsIn, t.members), FlatMap(PropertiesIn, t.members),
           FlatMap(MethodsIn, t.members), FlatMap(ConstructorsIn, t.members))
  }

  function StructInfoOf(t: TypeDecl): StructInfo
    requires t.StructDecl?
  {
    Struct(t.identifier, KindOf(t), AttributesOf(TypeAttributeLists(t)), t.modifiers,
           FlatMap(FieldsIn, t.members), FlatMap(MethodsIn, t.members))
  }

  function InterfaceInfoOf(t: TypeDecl): InterfaceInfo
    requires t.InterfaceDecl?
  {
    Interface(t.identifier, KindOf(t), AttributesOf(TypeAttributeLists(t)), t.modifiers,
              BaseTypesOf(t.baseList), FlatMap(MethodsIn, t.members), FlatMap(PropertiesIn, t.members))
  }

  /** `ParseBaseType`. */
  function TypeInfoOf(t: TypeDecl): TypeInfo
  {
    match t
    case ClassDecl(_, _, _, _, _, _) => ClassInfoOf(t)
    case StructDecl(_, _, _, _, _, _) => StructInfoOf(t)
    case InterfaceDecl(_, _, _, _, _) => InterfaceInfoOf(t)
    case EnumDecl(_, _, _, _, _) => ParseEnum(t)
    case RecordDecl(_, _, _, _, _, _, _) => RecordInfoOf(t)
    case OtherTypeDecl(_, _, _) => BaseType(t.identifier, KindOf(t), AttributesOf(TypeAttributeLists(t)))
  }

  /** A namespace keeps its direct type declarations only, in order. */
  function NamespaceInfoOf(name: string, members: seq<NamespaceMember>): NamespaceInfo
  {
    NamespaceInfo(name, Map(TypeInfoOf, FlatMap(TypeDeclsIn, members)))
  }

  function BlockNamespaceInfo(ns: BlockNamespace): NamespaceInfo
  {
    NamespaceInfoOf(ns.name, ns.members)
  }

  /** `AddTypeToResult`: a top-level class, struct, interface or enum goes to
      its list; anything else (a record, another kind) is dropped. */
  function AddType(f: FileInfo, t: TypeDecl): FileInfo
  {
    match t
    case ClassDecl(_, _, _, _, _, _) => f.(classes := f.classes + [ClassInfoOf(t)])
    case StructDecl(_, _, _, _, _, _) => f.(structs := f.structs + [StructInfoOf(t)])
    case InterfaceDecl(_, _, _, _, _) => f.(interfaces := f.interfaces + [InterfaceInfoOf(t)])
    case EnumDecl(_, _, _, _, _) => f.(enums := f.enums + [ParseEnum(t)])
    case RecordDecl(_, _, _, _, _, _, _) => f
    case OtherTypeDecl(_, _, _) => f
  }

  function AddTypes(f: FileInfo, ts: seq<TypeDecl>): FileInfo
  {
    if ts == [] then f else AddType(AddTypes(f, ts[..|ts| - 1]), ts[|ts| - 1])
  }

  /** The namespaces of a file: every block namespace in document order, then
      the file-scoped namespace if there is one. */
  function NamespacesOf(unit: CompilationUnit): seq<NamespaceInfo>
  {
    Map(BlockNamespaceInfo, BlockNamespaces(unit.members))
      + match FirstFileScoped(unit.members)
        case None => []
        case Some(fs) => [NamespaceInfoOf(fs.name, fs.members)]
  }

  /** `AnalyzeFile` for a file read as `code` and parsed as `unit`. */
  function FileInfoOf(path: string, code: string, unit: CompilationUnit): FileInfo
  {
    AddTypes(FileInfo(path, GetUsings(unit), NamespacesOf(unit), [], [], [], [], code,
                      GetAssemblyAttributes(unit)),
             FlatMap(TypeDeclsIn, unit.members))
  }

  // ---- The parsers ----

  method ParseClass(t: TypeDecl) returns (r: ClassInfo)
    requires t.ClassDecl?
    ensures r == ClassInfoOf(t)
  {
    var ms := t.members;
    var fields: seq<FieldInfo>, properties: seq<PropertyInfo>, methods: seq<MethodInfo> := [], [], [];
    var constructors: seq<ConstructorInfo>, events: seq<EventInfo> := [], [];
    for i := 0 to |ms|
      invariant fields == FlatMap(FieldsIn, ms[..i])
      invariant properties == FlatMap(PropertiesIn, ms[..i])
      invariant methods == FlatMap(MethodsIn, ms[..i])
      invariant constructors == FlatMap(ConstructorsIn, ms[..i])
      invariant events == FlatMap(EventsIn, ms[..i])
    {
      var member := ms[i];
      match member {
        case FieldDecl(_, _, _, _) => fields := fields + ParseFields(member);
        case PropertyDecl(_, _, _, _, _) => properties := properties + [ParseProperty(member)];
        case MethodDecl(_, _, _, _, _, _, _) => methods := methods + [ParseMethod(member)];
        case ConstructorDecl(_, _, _, _, _, _) => constructors := constructors + [ParseConstructor(member)];
        case EventDecl(_, _, _, _, _) => events := events + [ParseEvent(member)];
        case _ =>
      }
      FlatMapPrefix(FieldsIn, ms, i);
      FlatMapPrefix(PropertiesIn, ms, i);
      FlatMapPrefix(MethodsIn, ms, i);
      FlatMapPrefix(ConstructorsIn, ms, i);
      FlatMapPrefix(EventsIn, ms, i);
    }
    assert ms[..|ms|] == ms;
    r := Class(t.identifier, KindOf(t), AttributesOf(TypeAttributeLists(t)), t.modifiers,
               BaseTypesOf(t.baseList), fields, properties, methods, constructors, events);
  }

  method ParseRecord(t: TypeDecl) returns (r: RecordInfo)
    requires t.RecordDecl?
    ensures r == RecordInfoOf(t)
  {
    var ms := t.members;
    var fields: seq<FieldInfo>, properties: seq<PropertyInfo>, methods: seq<MethodInfo> := [], [], [];
    var constructors: seq<ConstructorInfo> := [];
    for i := 0 to |ms|
      invariant fields == FlatMap(FieldsIn, ms[..i])
      invariant properties == FlatMap(PropertiesIn, ms[..i])
      invariant methods == FlatMap(MethodsIn, ms[..i])
      invariant constructors == FlatMap(ConstructorsIn, ms[..i])
    {
      var member := ms[i];
      match member {
        case FieldDecl(_, _, _, _) => fields := fields + ParseFields(member);
        case PropertyDecl(_, _, _, _, _) => properties := properties + [ParseProperty(member)];
        case MethodDecl(_, _, _, _, _, _, _) => methods := methods + [ParseMethod(member)];
        case ConstructorDecl(_, _, _, _, _, _) => constructors := constructors + [ParseConstructor(member)];
        case _ =>
      }
      FlatMapPrefix(FieldsIn, ms, i);
      FlatMapPrefix(PropertiesIn, ms, i);
      FlatMapPrefix(MethodsIn, ms, i);
      FlatMapPrefix(ConstructorsIn, ms, i);
    }
    assert ms[..|ms|] == ms;
    r := Record(t.identifier, KindOf(t), AttributesOf(TypeAttributeLists(t)), t.modifiers,
                BaseTypesOf(t.baseList), fields, properties, methods, constructors);
  }

  method ParseStruct(t: TypeDecl) returns (r: StructInfo)
    requires t.StructDecl?
    ensures r == StructInfoOf(t)
  {
    var ms := t.members;
    var fields: seq<FieldInfo>, methods: seq<MethodInfo> := [], [];
    for i := 0 to |ms|
      invariant fields == FlatMap(FieldsIn, ms[..i])
      invariant methods == FlatMap(MethodsIn, ms[..i])
    {
      var member := ms[i];
      match member {
        case FieldDecl(_, _, _, _) => fields := fields + ParseFields(member);
        case MethodDecl(_, _, _, _, _, _, _) => methods := methods + [ParseMethod(member)];
        case _ =>
      }
      FlatMapPrefix(FieldsIn, ms, i);
      FlatMapPrefix(MethodsIn, ms, i);
    }
    assert ms[..|ms|] == ms;
    r := Struct(t.identifier, KindOf(t), AttributesOf(TypeAttributeLists(t)), t.modifiers, fields, methods);
  }

  method ParseInterface(t: TypeDecl) returns (r: InterfaceInfo)
    requires t.InterfaceDecl?
    ensures r == InterfaceInfoOf(t)
  {
    var ms := t.members;
    var methods: seq<MethodInfo>, properties: seq<PropertyInfo> := [], [];
    for i := 0 to |ms|
      invariant methods == FlatMap(MethodsIn, ms[..i])
      invariant properties == FlatMap(PropertiesIn, ms[..i])
    {
      var member := ms[i];
      match member {
        case MethodDecl(_, _, _, _, _, _, _) => methods := methods + [ParseMethod(member)];
        case PropertyDecl(_, _, _, _, _) => properties := properties + [ParseProperty(member)];
        case _ =>
      }
      FlatMapPrefix(MethodsIn, ms, i);
      FlatMapPrefix(PropertiesIn, ms, i);
    }
    assert ms[..|ms|] == ms;
    r := Interface(t.identifier, KindOf(t), AttributesOf(TypeAttributeLists(t)), t.modifiers,
                   BaseTypesOf(t.baseList), methods, properties);
  }

  method ParseBaseType(t: TypeDecl) returns (r: TypeInfo)
    ensures r == TypeInfoOf(t)
  {
    match t {
      case ClassDecl(_, _, _, _, _, _) => r := ParseClass(t);
      case StructDecl(_, _, _, _, _, _) => r := ParseStruct(t);
      case InterfaceDecl(_, _, _, _, _) => r := ParseInterface(t);
      case EnumDecl(_, _, _, _, _) => r := ParseEnum(t);
      case RecordDecl(_, _, _, _, _, _, _) => r := ParseRecord(t);
      case OtherTypeDecl(_, _, _) => r := BaseType(t.identifier, KindOf(t), AttributesOf(TypeAttributeLists(t)));
    }
  }

  /** The loop shared by `ParseNamespace` and the file-scoped branch of
      `AnalyzeFile`: parse the direct type declarations among `members`. */
  method ParseNamespaceMembers(name: string, members: seq<NamespaceMember>) returns (r: NamespaceInfo)
    ensures r == NamespaceInfoOf(name, members)
  {
    r := NamespaceInfo(name, []);
    for i := 0 to |members|
      invariant r == NamespaceInfo(name, Map(TypeInfoOf, FlatMap(TypeDeclsIn, members[..i])))
    {
      var member := members[i];
      FlatMapPrefix(TypeDeclsIn, members, i);
      MapAppend(TypeInfoOf, FlatMap(TypeDeclsIn, members[..i]), TypeDeclsIn(member));
      if member.TypeMember? {
        var info := ParseBaseType(member.decl);
        r := r.(members := r.members + [info]);
      }
    }
    assert members[..|members|] == members;
  }

  method ParseNamespace(ns: BlockNamespace) returns (r: NamespaceInfo)
    ensures r == BlockNamespaceInfo(ns)
  {
    r := ParseNamespaceMembers(ns.name, ns.members);
  }

  method AddTypeToResult(result: FileInfo, t: TypeDecl) returns (r: FileInfo)
    ensures r == AddType(result, t)
  {
    r := result;
    match t {
      case ClassDecl(_, _, _, _, _, _) =>
        var c := ParseClass(t);
        r := r.(classes := r.classes + [c]);
      case StructDecl(_, _, _, _, _, _) =>
        var s := ParseStruct(t);
        r := r.(structs := r.structs + [s]);
      case InterfaceDecl(_, _, _, _, _) =>
        var i := ParseInterface(t);
        r := r.(interfaces := r.interfaces + [i]);
      case EnumDecl(_, _, _, _, _) =>
        r := r.(enums := r.enums + [ParseEnum(t)]);
      case _ =>
    }
  }

  method AnalyzeFile(filePath: string, code: string, parse: string -> CompilationUnit)
    returns (r: FileInfo)
    ensures r == FileInfoOf(filePath, code, parse(code))
  {
    var root := parse(code);
    r := FileInfo(filePath, GetUsings(root), [], [], [], [], [], code, GetAssemblyAttributes(root));
    var namespaceDeclarations := BlockNamespaces(root.members);
    for i := 0 to |namespaceDeclarations|
      invariant r == FileInfo(filePath, GetUsings(root), Map(BlockNamespaceInfo, namespaceDeclarations[..i]),
                              [], [], [], [], code, GetAssemblyAttributes(root))
    {
      var nsInfo := ParseNamespace(namespaceDeclarations[i]);
      assert namespaceDeclarations[..i + 1] == namespaceDeclarations[..i] + [namespaceDeclarations[i]];
      r := r.(namespaces := r.namespaces + [nsInfo]);
    }
    assert namespaceDeclarations[..|namespaceDeclarations|] == namespaceDeclarations;
    var fileScopedNamespace := FirstFileScoped(root.members);
    if fileScopedNamespace.Some? {
      var fs := fileScopedNamespace.value;
      var nsInfo := ParseNamespaceMembers(fs.name, fs.members);
      r := r.(namespaces := r.namespaces + [nsInfo]);
    }
    assert r.namespaces == NamespacesOf(root);
    var withNamespaces := r;
    var globalTypes := FlatMap(TypeDeclsIn, root.members);
    for k := 0 to |globalTypes|
      invariant r == AddTypes(withNamespaces, globalTypes[..k])
    {
      assert globalTypes[..k + 1][..k] == globalTypes[..k];
      r := AddTypeToResult(r, globalTypes[k]);
    }
    assert globalTypes[..|globalTypes|] == globalTypes;
  }

  // ---- The project ----

  /** The file system as seen from the project root: the names of the files
      directly under it, and every file below it (all directories). */
  datatype ProjectDirectory = ProjectDirectory(rootFiles: seq<string>, allFiles: seq<string>)

  /** The outcome of `File.ReadAllText`. */
  datatype ReadResult = Read(code: string) | ReadFailed(message: string)

  const ExcludedDirs: seq<string> := ["bin", "obj", ".git", "packages", "node_modules"]

  function Segment(dir: string): string
  {
    [Paths.Separator] + dir + [Paths.Separator]
  }

  /** The path has a `/d/` segment for some excluded directory name `d`. */
  predicate IsExcluded(path: string)
  {
    || Text.Contains(path, Segment("bin"))
    || Text.Contains(path, Segment("obj"))
    || Text.Contains(path, Segment(".git"))
    || Text.Contains(path, Segment("packages"))
    || Text.Contains(path, Segment("node_modules"))
  }

  predicate IsCSharpSource(path: string)
  {
    Text.EndsWith(path, ".cs") && !IsExcluded(path)
  }

  /** `GetCSharpFiles`: the `.cs` files below the root that do not lie under
      an excluded directory, in enumeration order. */
  function GetCSharpFiles(allFiles: seq<string>): seq<string>
  {
    Filter(IsCSharpSource, allFiles)
  }

  predicate HasSolutionFile(rootFiles: seq<string>)
  {
    exists i | 0 <= i < |rootFiles| :: Text.EndsWith(rootFiles[i], ".sln")
  }

  function SolutionNotFound(): ErrorRecord.Error
  {
    Errors.NotFound(None, Some("Solution file"))
  }

  function AnalyzeError(file: string, message: string): ErrorRecord.Error
  {
    ErrorRecord.NewError("file.analyze", "Error analyzing file " + file + ": " + message,
                         ErrorTypes.Failure)
  }

  /** `AnalyzeFile` as a value: the file info of a file path and its text. */
  function Analyzed(parse: string -> CompilationUnit): (string, string) -> FileInfo
  {
    (file, code) => FileInfoOf(file, code, parse(code))
  }

  /** The file loop: analyse each file in order with `info`; the first file
      that cannot be read ends the run with its error, dropping what was
      analysed. */
  function AnalyzeFiles(files: seq<string>, read: string -> ReadResult, info: (string, string) -> FileInfo)
    : Result<seq<FileInfo>, ErrorRecord.Error>
  {
    if files == [] then Ok([])
    else
      var file := files[|files| - 1];
      match AnalyzeFiles(files[..|files| - 1], read, info)
      case Err(e) => Err(e)
      case Ok(done) =>
        match read(file)
        case ReadFailed(message) => Err(AnalyzeError(file, message))
        case Read(code) => Ok(done + [info(file, code)])
  }

  /** `AnalyzeProject`, with `info` for `AnalyzeFile`. */
  function AnalysisOf(dir: ProjectDirectory, read: string -> ReadResult, info: (string, string) -> FileInfo)
    : Result<ProjectAnalysisResult, ErrorRecord.Error>
  {
    if !HasSolutionFile(dir.rootFiles) then Err(SolutionNotFound())
    else match AnalyzeFiles(GetCSharpFiles(dir.allFiles), read, info)
      case Err(e) => Err(e)
      case Ok(files) => Ok(ProjectAnalysisResult(files))
  }

  /** Once a prefix of the files fails, the whole run fails with that error. */
  lemma {:induction false} FailureStops(files: seq<string>, n: nat, read: string -> ReadResult,
                                        info: (string, string) -> FileInfo)
    requires n <= |files| && AnalyzeFiles(files[..n], read, info).Err?
    ensures AnalyzeFiles(files, read, info) == AnalyzeFiles(files[..n], read, info)
    decreases |files| - n
  {
    if n < |files| {
      assert files[..n + 1][..n] == files[..n];
      FailureStops(files, n + 1, read, info);
    } else {
      assert files[..n] == files;
    }
  }

  /** `AnalyzeProject(projectPath)`: `dir` is the directory listing of
      `projectPath` (its root files and every file below it), so the path
      itself is not read again. */
  method AnalyzeProject(projectPath: string, dir: ProjectDirectory, read: string -> ReadResult,
                        parse: string -> CompilationUnit)
    returns (r: Result<ProjectAnalysisResult, ErrorRecord.Error>)
    ensures r == AnalysisOf(dir, read, Analyzed(parse))
  {
    var result := ProjectAnalysisResult([]);
    if !HasSolutionFile(dir.rootFiles) {
      return Err(SolutionNotFound());
    }
    var csFiles := GetCSharpFiles(dir.allFiles);
    for i := 0 to |csFiles|
      invariant AnalyzeFiles(csFiles[..i], read, Analyzed(parse)) == Ok(result.filesInfo)
    {
      var file := csFiles[i];
      assert csFiles[..i + 1][..i] == csFiles[..i];
      match read(file) {
        case ReadFailed(message) =>
          FailureStops(csFiles, i + 1, read, Analyzed(parse));
          return Err(AnalyzeError(file, message));
        case Read(code) =>
          var fileResult := AnalyzeFile(file, code, parse);
          assert Analyzed(parse)(file, code) == fileResult;
          var folder := FolderPath(fileResult);
          result := result.(filesInfo := result.filesInfo + [fileResult]);
      }
    }
    assert csFiles[..|csFiles|] == csFiles;
    return Ok(result);
  }
}
