/** Properties of the rendered prompt: section order, which sections appear,
    and the shape of each item. */
module PromptFacts {
  import opened ProjectInfo
  import opened Seqs
  import opened Prompts
  import Text
  import Paths
  import Syntax
  import Analyzer
  import AnalyzerFacts

  /** The prompt starts with the file name line, the location line and a
      blank line. */
  lemma PromptBeginsWithHeader(f: FileInfo)
    ensures PromptLines(f)[..3] == ["File: " + Paths.FileName(f.filePath), "Location: " + f.filePath, ""]
    ensures Text.StartsWith(PromptText(f),
      "File: " + Paths.FileName(f.filePath) + "\n" + "Location: " + f.filePath + "\n" + "\n")
  {
    var head, u, a, n := HeaderLines(f), UsingsLines(f.usings), AssemblyLines(f.assemblyAttributes),
                         FlatMap(NamespaceLines, f.namespaces);
    assert head + u + a + n == head + (u + a + n);
    Text.RenderStartsWith(head, u + a + n);
    Text.RenderTwoThenBlank("File: " + Paths.FileName(f.filePath), "Location: " + f.filePath);
  }

  /** A file info without assembly attributes renders no assembly section:
      the namespaces follow the usings directly. */
  lemma NoAssemblySection(f: FileInfo)
    requires f.assemblyAttributes == []
    ensures PromptText(f) == Text.Render(HeaderLines(f)) + Text.Render(UsingsLines(f.usings))
      + Text.Render(FlatMap(NamespaceLines, f.namespaces))
  {
    SectionOrder(f);
    assert Text.Render(AssemblyLines(f.assemblyAttributes)) == "";
  }

  /** The prompt of an analysed file never holds an "Assembly attributes:"
      section, since the extractor's filter keeps no attribute list. */
  lemma AnalyzedPromptWithoutAssembly(path: string, code: string, unit: Syntax.CompilationUnit)
    ensures var f := Analyzer.FileInfoOf(path, code, unit);
      && AssemblyLines(f.assemblyAttributes) == []
      && PromptText(f) == Text.Render(HeaderLines(f)) + Text.Render(UsingsLines(f.usings))
           + Text.Render(FlatMap(NamespaceLines, f.namespaces))
  {
    AnalyzerFacts.AnalyzedFileShape(path, code, unit);
    NoAssemblySection(Analyzer.FileInfoOf(path, code, unit));
  }

  /** The prompt is the header, then the usings, then the assembly
      attributes, then the namespaces, each rendered on its own. */
  lemma SectionOrder(f: FileInfo)
    ensures PromptText(f) == Text.Render(HeaderLines(f)) + Text.Render(UsingsLines(f.usings))
      + Text.Render(AssemblyLines(f.assemblyAttributes)) + Text.Render(FlatMap(NamespaceLines, f.namespaces))
  {
    var a, b, c, d := HeaderLines(f), UsingsLines(f.usings), AssemblyLines(f.assemblyAttributes),
                      FlatMap(NamespaceLines, f.namespaces);
    Text.RenderAppend(a + b + c, d);
    Text.RenderAppend(a + b, c);
    Text.RenderAppend(a, b);
  }

  /** The top-level classes, structs, enums and interfaces of a file never
      reach its prompt. */
  lemma TopLevelTypesNotRendered(f: FileInfo, classes: seq<ClassInfo>, structs: seq<StructInfo>,
                                 enums: seq<EnumInfo>, interfaces: seq<InterfaceInfo>)
    ensures PromptText(f.(classes := classes, structs := structs, enums := enums, interfaces := interfaces))
         == PromptText(f)
  {
  }

  /** "Imported namespaces:" appears iff there are usings, followed by one
      `- u` line per using in order and a blank line. */
  lemma UsingsSection(usings: seq<string>)
    ensures UsingsLines(usings) == [] <==> usings == []
    ensures usings != [] ==>
      var ls := UsingsLines(usings);
      && |ls| == |usings| + 2 && ls[0] == "Imported namespaces:" && ls[|ls| - 1] == ""
      && forall i :: 0 <= i < |usings| ==> ls[i + 1] == "- " + usings[i]
  {
  }

  /** "Assembly attributes:" appears iff there are assembly attributes,
      followed by each attribute's lines and a blank line. */
  lemma AssemblySection(attrs: seq<AttributeInfo>)
    ensures AssemblyLines(attrs) == [] <==> attrs == []
    ensures attrs != [] ==>
      AssemblyLines(attrs) == ["Assembly attributes:"] + FlatMap(AttributeItemLines, attrs) + [""]
  {
  }

  /** An attribute shows an "Arguments:" line iff it has at least one argument. */
  lemma ArgumentsLineIff(a: AttributeInfo)
    ensures AttributeItemLines(a)[0] == "- " + a.name
    ensures |AttributeItemLines(a)| == 2 <==> |a.arguments| > 0
    ensures |AttributeItemLines(a)| == 1 <==> |a.arguments| == 0
    ensures |a.arguments| > 0 ==> AttributeItemLines(a)[1] == "  Arguments: " + Text.Join(", ", a.arguments)
  {
  }

  /** A namespace renders its name line, then each member's text ended by a
      newline. */
  lemma NamespaceShape(ns: NamespaceInfo)
    ensures NamespaceLines(ns)[0] == "Namespace: " + ns.name
    ensures |NamespaceLines(ns)| == 1 + |ns.members|
    ensures forall k :: 0 <= k < |ns.members| ==> NamespaceLines(ns)[k + 1] == MemberText(ns.members[k])
  {
    MapAfterHead(MemberText, "Namespace: " + ns.name, ns.members);
  }

  /** A member of a kind the renderer does not know renders as "", so a
      namespace holding only such a member is its name line and an empty line. */
  lemma BareMemberRendersEmpty(nsName: string, name: string, kind: Syntax.SyntaxKind, attrs: seq<AttributeInfo>)
    ensures MemberText(BaseType(name, kind, attrs)) == ""
    ensures Text.Render(NamespaceLines(NamespaceInfo(nsName, [BaseType(name, kind, attrs)])))
         == "Namespace: " + nsName + "\n" + "\n"
  {
    var single := NamespaceLines(NamespaceInfo(nsName, [BaseType(name, kind, attrs)]));
    assert Map(MemberText, [BaseType(name, kind, attrs)]) == [""];
    assert single == ["Namespace: " + nsName, ""];
    assert single[1..] == [""] && [""][1..] == [];
  }

  /** Every member section is left out entirely when its list is empty, and
      otherwise opens with a blank line and its heading. */
  lemma EmptySectionsOmitted(t: TypeInfo)
    requires t.Class?
    ensures FieldsLines(t.fields) == [] <==> t.fields == []
    ensures PropertiesLines(t.properties) == [] <==> t.properties == []
    ensures ConstructorsLines(t.constructors, t.name) == [] <==> t.constructors == []
    ensures MethodsLines(t.methods) == [] <==> t.methods == []
    ensures EventsLines(t.events) == [] <==> t.events == []
    ensures t.fields != [] ==> FieldsLines(t.fields)[..2] == ["", "Fields:"]
    ensures t.properties != [] ==> PropertiesLines(t.properties)[..2] == ["", "Properties:"]
    ensures t.constructors != [] ==> ConstructorsLines(t.constructors, t.name)[..2] == ["", "Constructors:"]
    ensures t.methods != [] ==> MethodsLines(t.methods)[..2] == ["", "Methods:"]
    ensures t.events != [] ==> EventsLines(t.events)[..2] == ["", "Events:"]
  {
  }

  /** A class with nothing but a name renders as its kind line alone. */
  lemma BareClass(name: string)
    ensures TypeBlockLines(Class(name, Syntax.ClassDeclaration, [], [], [], [], [], [], [], []), "Class")
         == ["Class: " + name]
  {
    var t := Class(name, Syntax.ClassDeclaration, [], [], [], [], [], [], [], []);
    assert ConstructorsLines(t.constructors, t.name) == [];
    assert ModifiersLines([]) == [] && BaseTypesLines([], "Inherits") == [] && FieldsLines([]) == [];
    assert PropertiesLines([]) == [] && MethodsLines([]) == [] && EventsLines([]) == [];
    assert SectionsOf(t) == [];
    assert AttributesLines([]) == [];
    assert "Class" + ": " == "Class: ";
  }

  /** Classes, records and structs render their attributes before their
      modifiers. */
  lemma AttributesBeforeModifiers(t: TypeInfo, typeKind: string)
    requires t.Class? || t.Record? || t.Struct?
    requires |t.attributes| > 0 && |t.modifiers| > 0
    ensures var ls := TypeBlockLines(t, typeKind); var k := 1 + |AttributesLines(t.attributes)|;
      && k < |ls| && ls[1] == "Attributes:" && ls[k] == "Modifiers: " + Text.Join(" ", t.modifiers)
  {
    var head := [typeKind + ": " + t.name] + AttributesLines(t.attributes);
    assert TypeBlockLines(t, typeKind) == head + SectionsOf(t);
    assert SectionsOf(t)[0] == "Modifiers: " + Text.Join(" ", t.modifiers);
  }

  /** Interfaces and enums render their modifiers before their attributes. */
  lemma ModifiersBeforeAttributes(i: InterfaceInfo, e: EnumInfo)
    ensures |i.modifiers| > 0 && |i.attributes| > 0 ==>
      InterfaceLines(i)[1] == "Modifiers: " + Text.Join(" ", i.modifiers) && InterfaceLines(i)[2] == "Attributes:"
    ensures |e.modifiers| > 0 && |e.attributes| > 0 ==>
      EnumLines(e)[1] == "Modifiers: " + Text.Join(" ", e.modifiers) && EnumLines(e)[2] == "Attributes:"
  {
  }

  /** An enum always renders a blank line and "Members:", even with no members. */
  lemma EnumAlwaysHasMembersHeading(e: EnumInfo)
    ensures var k := 1 + |ModifiersLines(e.modifiers)| + |AttributesLines(e.attributes)|;
      var ls := EnumLines(e);
      && |ls| == k + 2 + |e.members| && ls[k] == "" && ls[k + 1] == "Members:"
      && forall j :: 0 <= j < |e.members| ==> ls[k + 2 + j] == "- " + e.members[j].name + " = " + e.members[j].value
  {
    var head := ["Enum: " + e.name] + ModifiersLines(e.modifiers) + AttributesLines(e.attributes);
    assert EnumLines(e) == head + ["", "Members:"] + Map(EnumMemberLine, e.members);
  }

  /** Every method ends with "  Body:" and its body verbatim, even an empty one. */
  lemma MethodEndsWithBody(m: MethodInfo)
    ensures var ls := MethodLines(m);
      && |ls| == 3 + (if |m.parameters| > 0 then 1 + |m.parameters| else 0)
      && ls[|ls| - 2] == "  Body:" && ls[|ls| - 1] == m.body
  {
  }

  function WithDefaults(ps: seq<ParameterInfo>, defaults: seq<string>): (r: seq<ParameterInfo>)
    requires |defaults| == |ps|
    ensures |r| == |ps|
  {
    seq(|ps|, i requires 0 <= i < |ps| => ps[i].(defaultValue := defaults[i]))
  }

  /** Method parameters never show their defaults: changing them changes
      nothing in the rendering. */
  lemma MethodIgnoresDefaults(m: MethodInfo, defaults: seq<string>)
    requires |defaults| == |m.parameters|
    ensures MethodLines(m.(parameters := WithDefaults(m.parameters, defaults))) == MethodLines(m)
  {
    var ps, qs := m.parameters, WithDefaults(m.parameters, defaults);
    assert Map(ParamSignature, qs) == Map(ParamSignature, ps);
    assert Map(MethodParamLine, qs) == Map(MethodParamLine, ps);
  }

  predicate HasDefault(p: ParameterInfo)
  {
    p.defaultValue != ""
  }

  lemma {:induction false} ConstructorParamLineCount(ps: seq<ParameterInfo>)
    ensures |FlatMap(ConstructorParamLines, ps)| == |ps| + |Filter(HasDefault, ps)|
  {
    if ps != [] {
      ConstructorParamLineCount(ps[..|ps| - 1]);
    }
  }

  /** A constructor shows one line per parameter plus one "Default:" line per
      parameter with a non-empty default. */
  lemma ConstructorDefaultsShown(typeName: string, c: ConstructorInfo)
    ensures |ConstructorLines(typeName, c)| ==
      1 + (if |c.parameters| > 0 then 1 + |c.parameters| + |Filter(HasDefault, c.parameters)| else 0)
    ensures ConstructorLines(typeName, c)[0] == "- " + typeName + "(" + Signature(c.parameters) + ")"
  {
    ConstructorParamLineCount(c.parameters);
  }

  /** The parameter lines of a constructor: a default line follows a
      parameter exactly when its default is non-empty. */
  lemma ConstructorParamShape(p: ParameterInfo)
    ensures ConstructorParamLines(p)[0] == "  - " + p.parameterType + " " + p.name
    ensures |ConstructorParamLines(p)| == 2 <==> p.defaultValue != ""
    ensures p.defaultValue != "" ==> ConstructorParamLines(p)[1] == "    Default: " + p.defaultValue
  {
  }
}
