/** Properties of the extractor model: what each declaration kind keeps,
    what absent syntax becomes, where namespaces and top-level types go, and
    how the project loop gates and aborts. */
module AnalyzerFacts {
  import opened Wrappers
  import opened Syntax
  import opened ProjectInfo
  import opened Seqs
  import opened Analyzer
  import ErrorRecord
  import ErrorTypes
  import Errors
  import Text

  // ---- Member selection ----

  predicate IsFieldDecl(m: MemberDecl) { m.FieldDecl? }
  predicate IsPropertyDecl(m: MemberDecl) { m.PropertyDecl? }
  predicate IsMethodDecl(m: MemberDecl) { m.MethodDecl? }
  predicate IsConstructorDecl(m: MemberDecl) { m.ConstructorDecl? }
  predicate IsEventDecl(m: MemberDecl) { m.EventDecl? }

  /** `infos` holds one method info per method declaration of `ms`, in order. */
  predicate SelectsMethods(infos: seq<MethodInfo>, ms: seq<MemberDecl>)
  {
    var ds := Filter(IsMethodDecl, ms);
    |infos| == |ds| && forall i :: 0 <= i < |ds| ==> ds[i].MethodDecl? && infos[i] == ParseMethod(ds[i])
  }

  predicate SelectsProperties(infos: seq<PropertyInfo>, ms: seq<MemberDecl>)
  {
    var ds := Filter(IsPropertyDecl, ms);
    |infos| == |ds| && forall i :: 0 <= i < |ds| ==> ds[i].PropertyDecl? && infos[i] == ParseProperty(ds[i])
  }

  predicate SelectsConstructors(infos: seq<ConstructorInfo>, ms: seq<MemberDecl>)
  {
    var ds := Filter(IsConstructorDecl, ms);
    |infos| == |ds|
    && forall i :: 0 <= i < |ds| ==> ds[i].ConstructorDecl? && infos[i] == ParseConstructor(ds[i])
  }

  predicate SelectsEvents(infos: seq<EventInfo>, ms: seq<MemberDecl>)
  {
    var ds := Filter(IsEventDecl, ms);
    |infos| == |ds| && forall i :: 0 <= i < |ds| ==> ds[i].EventDecl? && infos[i] == ParseEvent(ds[i])
  }

  /** The fields come from the field declarations alone, each expanded. */
  predicate SelectsFields(infos: seq<FieldInfo>, ms: seq<MemberDecl>)
  {
    infos == FlatMap(FieldsIn, Filter(IsFieldDecl, ms))
  }

  lemma MethodsSelected(ms: seq<MemberDecl>)
    ensures SelectsMethods(FlatMap(MethodsIn, ms), ms)
  {
    FlatMapSelect(MethodsIn, IsMethodDecl, ms);
  }

  lemma PropertiesSelected(ms: seq<MemberDecl>)
    ensures SelectsProperties(FlatMap(PropertiesIn, ms), ms)
  {
    FlatMapSelect(PropertiesIn, IsPropertyDecl, ms);
  }

  lemma ConstructorsSelected(ms: seq<MemberDecl>)
    ensures SelectsConstructors(FlatMap(ConstructorsIn, ms), ms)
  {
    FlatMapSelect(ConstructorsIn, IsConstructorDecl, ms);
  }

  lemma EventsSelected(ms: seq<MemberDecl>)
    ensures SelectsEvents(FlatMap(EventsIn, ms), ms)
  {
    FlatMapSelect(EventsIn, IsEventDecl, ms);
  }

  lemma FieldsSelected(ms: seq<MemberDecl>)
    ensures SelectsFields(FlatMap(FieldsIn, ms), ms)
  {
    FlatMapFilter(FieldsIn, IsFieldDecl, ms);
  }

  /** A class keeps fields, properties, methods, constructors and events. */
  lemma ClassKeepsMembers(t: TypeDecl)
    requires t.ClassDecl?
    ensures var c := ClassInfoOf(t);
      && SelectsFields(c.fields, t.members) && SelectsProperties(c.properties, t.members)
      && SelectsMethods(c.methods, t.members) && SelectsConstructors(c.constructors, t.members)
      && SelectsEvents(c.events, t.members)
  {
    FieldsSelected(t.members);
    PropertiesSelected(t.members);
    MethodsSelected(t.members);
    ConstructorsSelected(t.members);
    EventsSelected(t.members);
  }

  /** A record keeps the same kinds except events, which it drops. */
  lemma RecordKeepsMembers(t: TypeDecl)
    requires t.RecordDecl?
    ensures var r := RecordInfoOf(t);
      && SelectsFields(r.fields, t.members) && SelectsProperties(r.properties, t.members)
      && SelectsMethods(r.methods, t.members) && SelectsConstructors(r.constructors, t.members)
  {
    FieldsSelected(t.members);
    PropertiesSelected(t.members);
    MethodsSelected(t.members);
    ConstructorsSelected(t.members);
  }

  /** A struct keeps only fields and methods. */
  lemma StructKeepsMembers(t: TypeDecl)
    requires t.StructDecl?
    ensures var s := StructInfoOf(t);
      SelectsFields(s.fields, t.members) && SelectsMethods(s.methods, t.members)
  {
    FieldsSelected(t.members);
    MethodsSelected(t.members);
  }

  /** An interface keeps only methods and properties. */
  lemma InterfaceKeepsMembers(t: TypeDecl)
    requires t.InterfaceDecl?
    ensures var i := InterfaceInfoOf(t);
      SelectsMethods(i.methods, t.members) && SelectsProperties(i.properties, t.members)
  {
    MethodsSelected(t.members);
    PropertiesSelected(t.members);
  }

  /** Every kind of type info carries the same header, taken from the declaration. */
  lemma TypeHeaderFromDeclaration(t: TypeDecl)
    ensures HeaderOf(TypeInfoOf(t)) == TypeHeader(t.identifier, KindOf(t), AttributesOf(TypeAttributeLists(t)))
    ensures t.ClassDecl? <==> TypeInfoOf(t).Class?
    ensures t.RecordDecl? <==> TypeInfoOf(t).Record?
    ensures t.StructDecl? <==> TypeInfoOf(t).Struct?
    ensures t.InterfaceDecl? <==> TypeInfoOf(t).Interface?
    ensures t.EnumDecl? <==> TypeInfoOf(t).Enum?
    ensures t.OtherTypeDecl? <==> TypeInfoOf(t).BaseType?
  {
  }

  // ---- Absent syntax ----

  /** Every optional piece of syntax that is missing becomes "" or []. */
  lemma AbsentSyntaxDefaults(t: TypeDecl, m: MemberDecl, p: Parameter, e: EnumMember)
    ensures t.ClassDecl? && t.baseList.None? ==> ClassInfoOf(t).baseTypes == []
    ensures t.RecordDecl? && t.baseList.None? ==> RecordInfoOf(t).baseTypes == []
    ensures t.InterfaceDecl? && t.baseList.None? ==> InterfaceInfoOf(t).baseInterfaces == []
    ensures e.equalsValue.None? ==> ParseEnumMember(e).value == ""
    ensures p.default.None? ==> ParseParameter(p).defaultValue == ""
    ensures p.parameterType.None? ==> ParseParameter(p).parameterType == ""
    ensures m.PropertyDecl? && m.accessorList.None? ==>
      ParseProperty(m).getter == "" && ParseProperty(m).setter == ""
  {
  }

  /** A getter or setter text is the block body of the first accessor of that
      kind; an expression-bodied accessor, or none at all, gives "". */
  lemma AccessorBodies(acc: seq<Accessor>, k: AccessorKind)
    ensures (forall a :: a in acc ==> a.kind != k) ==> AccessorBody(Some(acc), k) == ""
    ensures forall i :: 0 <= i < |acc| && acc[i].kind == k && (forall j :: 0 <= j < i ==> acc[j].kind != k) ==>
      AccessorBody(Some(acc), k) == OptionText(acc[i].body)
  {
    forall i | 0 <= i < |acc| && acc[i].kind == k && (forall j :: 0 <= j < i ==> acc[j].kind != k)
      ensures AccessorBody(Some(acc), k) == OptionText(acc[i].body)
    {
      FirstAccessorAt(acc, k, i);
    }
  }

  lemma {:induction false} FirstAccessorAt(acc: seq<Accessor>, k: AccessorKind, i: nat)
    requires i < |acc| && acc[i].kind == k && forall j :: 0 <= j < i ==> acc[j].kind != k
    ensures FirstAccessor(acc, k) == Some(acc[i])
  {
    if i > 0 {
      assert acc[0].kind != k;
      FirstAccessorAt(acc[1..], k, i - 1);
    }
  }

  /** A method body is the block, else the expression body, else ""; a
      constructor body is the block only, even when it has an expression body. */
  lemma BodyChoice(m: MemberDecl)
    ensures m.MethodDecl? ==>
      ParseMethod(m).body == (if m.body.Some? then m.body.value else OptionText(m.expressionBody))
    ensures m.ConstructorDecl? && m.body.None? ==> ParseConstructor(m).body == ""
  {
  }

  /** A declaration with nothing inside it yields only empty lists. */
  lemma EmptyDeclarationDefaults(t: TypeDecl)
    requires t.ClassDecl? && t.members == [] && t.baseList.None?
    ensures var c := ClassInfoOf(t);
      && c.baseTypes == [] && c.fields == [] && c.properties == [] && c.methods == []
      && c.constructors == [] && c.events == []
  {
  }

  // ---- Attributes ----

  lemma {:induction false} MemberListsWithin(ms: seq<MemberDecl>, k: nat, l: AttributeList)
    requires k < |ms| && l in MemberAttributeLists(ms[k])
    ensures l in MembersAttributeLists(ms)
  {
    var last := |ms| - 1;
    if k < last {
      assert ms[..last][k] == ms[k];
      MemberListsWithin(ms[..last], k, l);
    }
  }

  lemma {:induction false} ParameterListsWithin(ps: seq<Parameter>, j: nat, l: AttributeList)
    requires j < |ps| && l in ps[j].attributeLists
    ensures l in ParameterLists(ps)
  {
    var last := |ps| - 1;
    if j < last {
      assert ps[..last][j] == ps[j];
      ParameterListsWithin(ps[..last], j, l);
    }
  }

  predicate HasMembers(t: TypeDecl)
  {
    t.ClassDecl? || t.StructDecl? || t.InterfaceDecl? || t.RecordDecl?
  }

  /** The attributes of a member (parameters and accessors included) also
      appear in the attributes of the type declaring it. */
  lemma MemberAttributesLifted(t: TypeDecl, k: nat, a: AttributeInfo)
    requires HasMembers(t) && k < |t.members|
    requires a in AttributesOf(MemberAttributeLists(t.members[k]))
    ensures a in TypeInfoOf(t).attributes
  {
    var own := MemberAttributeLists(t.members[k]);
    var all := TypeAttributeLists(t);
    forall l | l in own ensures l in all {
      MemberListsWithin(t.members, k, l);
    }
    FlatMapMonotone(ListAttributes, own, all, a);
  }

  /** The attributes of a method's or constructor's parameter appear in the
      attributes of the member and of the type. */
  lemma ParameterAttributesLifted(t: TypeDecl, k: nat, j: nat, a: AttributeInfo)
    requires HasMembers(t) && k < |t.members|
    requires (t.members[k].MethodDecl? || t.members[k].ConstructorDecl?) && j < |t.members[k].parameters|
    requires a in ParseParameter(t.members[k].parameters[j]).attributes
    ensures a in AttributesOf(MemberAttributeLists(t.members[k]))
    ensures a in TypeInfoOf(t).attributes
  {
    var m := t.members[k];
    var own := m.parameters[j].attributeLists;
    forall l | l in own ensures l in MemberAttributeLists(m) {
      ParameterListsWithin(m.parameters, j, l);
    }
    FlatMapMonotone(ListAttributes, own, MemberAttributeLists(m), a);
    MemberAttributesLifted(t, k, a);
  }

  /** No attribute list passes the filter as written: its target, when
      present, is a target specifier node, never an `assembly` keyword. So an
      analysed file never has assembly attributes. */
  lemma AssemblyAttributesAlwaysEmpty(unit: CompilationUnit)
    ensures forall l :: !IsAssemblyList(l)
    ensures GetAssemblyAttributes(unit) == []
  {
    FilterNone(IsAssemblyList, AllAttributeLists(unit));
  }

  /** `[assembly: AssemblyVersion("1.0")]` is dropped by the filter as
      written and kept by the intended one. */
  lemma AssemblyVersionDropped()
    ensures var unit := CompilationUnit([], [AttributeList(AssemblyTarget, [Attribute("AssemblyVersion", Some(["\"1.0\""]))])], []);
      && GetAssemblyAttributes(unit) == []
      && IntendedAssemblyAttributes(unit) == [AttributeInfo("AssemblyVersion", ["\"1.0\""])]
  {
  }

  /** With the intended filter, the assembly attributes are exactly the
      attributes of the lists the file targets at `assembly`. */
  lemma AssemblyAttributesExactly(unit: CompilationUnit, a: AttributeInfo)
    ensures a in IntendedAssemblyAttributes(unit) <==>
      exists l :: l in AllAttributeLists(unit) && l.target == AssemblyTarget && a in ListAttributes(l)
  {
    var lists := AllAttributeLists(unit);
    FlatMapFilterMembership(ListAttributes, TargetsAssembly, lists, a);
  }

  // ---- Namespaces and top-level types ----

  predicate IsTypeMember(m: NamespaceMember) { m.TypeMember? }

  /** A namespace holds one type info per direct type declaration, in order;
      nested namespaces and other members contribute nothing to it. */
  lemma NamespaceKeepsTypesOnly(name: string, ms: seq<NamespaceMember>)
    ensures var ns := NamespaceInfoOf(name, ms); var ds := Filter(IsTypeMember, ms);
      && ns.name == name && |ns.members| == |ds|
      && forall i :: 0 <= i < |ds| ==> ds[i].TypeMember? && ns.members[i] == TypeInfoOf(ds[i].decl)
  {
    FlatMapSelect(TypeDeclsIn, IsTypeMember, ms);
  }

  function ClassIn(t: TypeDecl): seq<ClassInfo> { if t.ClassDecl? then [ClassInfoOf(t)] else [] }
  function StructIn(t: TypeDecl): seq<StructInfo> { if t.StructDecl? then [StructInfoOf(t)] else [] }
  function InterfaceIn(t: TypeDecl): seq<InterfaceInfo> { if t.InterfaceDecl? then [InterfaceInfoOf(t)] else [] }
  function EnumIn(t: TypeDecl): seq<EnumInfo> { if t.EnumDecl? then [ParseEnum(t)] else [] }

  /** Adding top-level types one by one routes each kind to its own list and
      changes nothing else; records and other kinds go nowhere. */
  lemma {:induction false} TopLevelRouting(f: FileInfo, ts: seq<TypeDecl>)
    ensures AddTypes(f, ts) == f.(classes := f.classes + FlatMap(ClassIn, ts),
                                  structs := f.structs + FlatMap(StructIn, ts),
                                  interfaces := f.interfaces + FlatMap(InterfaceIn, ts),
                                  enums := f.enums + FlatMap(EnumIn, ts))
  {
    if ts != [] {
      var ts', t := ts[..|ts| - 1], ts[|ts| - 1];
      TopLevelRouting(f, ts');
      AddTypeRouting(AddTypes(f, ts'), t);
      ListSnoc(f.classes, ClassIn, ts);
      ListSnoc(f.structs, StructIn, ts);
      ListSnoc(f.interfaces, InterfaceIn, ts);
      ListSnoc(f.enums, EnumIn, ts);
    }
  }

  /** The last step of a list built by `FlatMap` on top of `base`. */
  lemma ListSnoc<A>(base: seq<A>, f: TypeDecl -> seq<A>, ts: seq<TypeDecl>)
    requires ts != []
    ensures base + FlatMap(f, ts[..|ts| - 1]) + f(ts[|ts| - 1]) == base + FlatMap(f, ts)
  {
  }

  /** One top-level type goes to the list of its kind, if any. */
  lemma AddTypeRouting(g: FileInfo, t: TypeDecl)
    ensures AddType(g, t) == g.(classes := g.classes + ClassIn(t), structs := g.structs + StructIn(t),
                                interfaces := g.interfaces + InterfaceIn(t), enums := g.enums + EnumIn(t))
  {
    assert g.classes + [] == g.classes && g.structs + [] == g.structs;
    assert g.interfaces + [] == g.interfaces && g.enums + [] == g.enums;
  }

  /** A top-level record leaves the file info as it was. */
  lemma TopLevelRecordDropped(f: FileInfo, ts: seq<TypeDecl>, t: TypeDecl)
    requires t.RecordDecl?
    ensures AddTypes(f, ts + [t]) == AddTypes(f, ts)
  {
    assert (ts + [t])[..|ts|] == ts;
  }

  /** The analysed file: path and content verbatim, the usings of the whole
      file, no assembly attributes, block namespaces in document order followed
      by the file-scoped namespace (if any), and the top-level types by kind. */
  lemma AnalyzedFileShape(path: string, code: string, unit: CompilationUnit)
    ensures var f := FileInfoOf(path, code, unit); var top := FlatMap(TypeDeclsIn, unit.members);
      var blocks := Map(BlockNamespaceInfo, BlockNamespaces(unit.members));
      && f.filePath == path && f.rawContent == code
      && f.usings == GetUsings(unit) && f.assemblyAttributes == []
      && (FirstFileScoped(unit.members).None? ==> f.namespaces == blocks)
      && (FirstFileScoped(unit.members).Some? ==>
            var fs := FirstFileScoped(unit.members).value;
            f.namespaces == blocks + [NamespaceInfoOf(fs.name, fs.members)])
      && f.classes == FlatMap(ClassIn, top) && f.structs == FlatMap(StructIn, top)
      && f.interfaces == FlatMap(InterfaceIn, top) && f.enums == FlatMap(EnumIn, top)
  {
    var top := FlatMap(TypeDeclsIn, unit.members);
    TopLevelRouting(FileInfo(path, GetUsings(unit), NamespacesOf(unit), [], [], [], [], code,
                             GetAssemblyAttributes(unit)), top);
    AssemblyAttributesAlwaysEmpty(unit);
  }

  // ---- The project loop ----

  /** Without a solution file the result is the NotFound error
      "Solution file not found", whatever the files hold. */
  lemma NoSolutionGate(dir: ProjectDirectory, read: string -> ReadResult, info: (string, string) -> FileInfo,
                       read': string -> ReadResult, info': (string, string) -> FileInfo)
    requires !HasSolutionFile(dir.rootFiles)
    ensures AnalysisOf(dir, read, info) == AnalysisOf(dir, read', info') == Err(SolutionNotFound())
    ensures SolutionNotFound().code == "record.not.found"
    ensures SolutionNotFound().errorType == ErrorTypes.NotFound
    ensures SolutionNotFound().message == "Solution file not found"
  {
    Errors.NotFoundWithoutId("Solution file");
  }

  /** A path is kept iff it ends in ".cs" and has no `/d/` segment for any
      excluded directory `d`. */
  lemma KeptIff(path: string)
    ensures IsCSharpSource(path) <==>
      Text.EndsWith(path, ".cs") && forall i :: 0 <= i < |ExcludedDirs| ==> !Text.Contains(path, Segment(ExcludedDirs[i]))
  {
    assert ExcludedDirs[0] == "bin" && ExcludedDirs[1] == "obj" && ExcludedDirs[2] == ".git";
    assert ExcludedDirs[3] == "packages" && ExcludedDirs[4] == "node_modules";
  }

  lemma CSharpFilesExactly(allFiles: seq<string>, path: string)
    ensures path in GetCSharpFiles(allFiles) <==> path in allFiles && IsCSharpSource(path)
  {
    FilterMembership(IsCSharpSource, allFiles, path);
  }

  /** A project whose root path itself has an excluded segment (a checkout
      under `.../packages/...`, say) yields no source files at all. */
  lemma ExcludedRootHidesEverything(root: string, allFiles: seq<string>, i: nat)
    requires i < |ExcludedDirs| && Text.Contains(root, Segment(ExcludedDirs[i]))
    requires forall p :: p in allFiles ==> Text.StartsWith(p, root)
    ensures GetCSharpFiles(allFiles) == []
  {
    forall p | p in allFiles ensures !IsCSharpSource(p) {
      Text.ContainsThroughPrefix(p, root, Segment(ExcludedDirs[i]));
      KeptIff(p);
    }
    if GetCSharpFiles(allFiles) != [] {
      var p := GetCSharpFiles(allFiles)[0];
      CSharpFilesExactly(allFiles, p);
    }
  }

  predicate AllReadable(files: seq<string>, read: string -> ReadResult)
  {
    forall j :: 0 <= j < |files| ==> read(files[j]).Read?
  }

  /** The loop succeeds iff every file can be read, and then yields one
      file info per file, in order, each the analysis of that file's text. */
  lemma {:induction false} AllReadableSucceeds(files: seq<string>, read: string -> ReadResult,
                                               info: (string, string) -> FileInfo)
    ensures AnalyzeFiles(files, read, info).Ok? <==> AllReadable(files, read)
    ensures AnalyzeFiles(files, read, info).Ok? ==>
      var done := AnalyzeFiles(files, read, info).value;
      |done| == |files| && forall j :: 0 <= j < |files| ==> done[j] == info(files[j], read(files[j]).code)
  {
    if files != [] {
      var init := files[..|files| - 1];
      AllReadableSucceeds(init, read, info);
      assert forall j :: 0 <= j < |init| ==> init[j] == files[j];
    }
  }

  /** The analysis error names the file it is about. */
  lemma AnalyzeErrorNamesFile(file: string, message: string)
    ensures var e := AnalyzeError(file, message);
      e.code == "file.analyze" && e.errorType == ErrorTypes.Failure && Text.Contains(e.message, file)
  {
    Text.ContainsSpliced("Error analyzing file ", file, ": " + message);
    assert "Error analyzing file " + file + ": " + message == "Error analyzing file " + file + (": " + message);
  }

  /** The first file that cannot be read aborts the run with a Failure
      "file.analyze" naming that file; what was analysed before is dropped. */
  lemma FirstUnreadableAborts(files: seq<string>, read: string -> ReadResult,
                              info: (string, string) -> FileInfo, k: nat)
    requires k < |files| && read(files[k]).ReadFailed? && AllReadable(files[..k], read)
    ensures AnalyzeFiles(files, read, info) == Err(AnalyzeError(files[k], read(files[k]).message))
    ensures var e := AnalyzeError(files[k], read(files[k]).message);
      e.code == "file.analyze" && e.errorType == ErrorTypes.Failure && Text.Contains(e.message, files[k])
  {
    var pre := files[..k];
    AllReadableSucceeds(pre, read, info);
    var e := AnalyzeError(files[k], read(files[k]).message);
    assert AnalyzeFiles(files[..k + 1], read, info) == Err(e) by {
      assert files[..k + 1][..k] == pre;
      assert files[..k + 1][k] == files[k];
    }
    FailureStops(files, k + 1, read, info);
    AnalyzeErrorNamesFile(files[k], read(files[k]).message);
  }
}
