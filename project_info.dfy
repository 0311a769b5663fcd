/** The declaration model the extractor produces (Domain/ProjectInfo.cs).
    The C# classes are init-only records, so they become datatypes. The base
    class `BaseTypeInfo` and its five subclasses become one tagged sum,
    `TypeInfo`, whose constructors all carry the shared header `name`, `kind`,
    `attributes`; `BaseType` is a plain `BaseTypeInfo` (a type declaration of
    any other kind). The subset types `ClassInfo`, `StructInfo`, ... are the
    element types of the lists that hold only one subclass. */
module ProjectInfo {
  import Paths
  import opened Syntax

  datatype AttributeInfo = AttributeInfo(name: string, arguments: seq<string>)

  datatype ParameterInfo = ParameterInfo(
    name: string, parameterType: string, defaultValue: string, attributes: seq<AttributeInfo>)

  datatype FieldInfo = FieldInfo(
    name: string, fieldType: string, modifiers: seq<string>, initializer: string,
    attributes: seq<AttributeInfo>)

  datatype PropertyInfo = PropertyInfo(
    name: string, propertyType: string, modifiers: seq<string>, getter: string, setter: string,
    attributes: seq<AttributeInfo>)

  datatype MethodInfo = MethodInfo(
    name: string, returnType: string, modifiers: seq<string>, parameters: seq<ParameterInfo>,
    body: string, attributes: seq<AttributeInfo>)

  /** A constructor has no name of its own. */
  datatype ConstructorInfo = ConstructorInfo(
    modifiers: seq<string>, parameters: seq<ParameterInfo>, body: string,
    attributes: seq<AttributeInfo>)

  datatype EventInfo = EventInfo(
    name: string, eventType: string, modifiers: seq<string>, attributes: seq<AttributeInfo>)

  /** An enum member is a (name, value text) pair. */
  datatype EnumMemberInfo = EnumMemberInfo(name: string, value: string)

  datatype TypeInfo =
    | Class(name: string, kind: SyntaxKind, attributes: seq<AttributeInfo>,
            modifiers: seq<string>, baseTypes: seq<string>, fields: seq<FieldInfo>,
            properties: seq<PropertyInfo>, methods: seq<MethodInfo>,
            constructors: seq<ConstructorInfo>, events: seq<EventInfo>)
    | Record(name: string, kind: SyntaxKind, attributes: seq<AttributeInfo>,
             modifiers: seq<string>, baseTypes: seq<string>, fields: seq<FieldInfo>,
             properties: seq<PropertyInfo>, methods: seq<MethodInfo>,
             constructors: seq<ConstructorInfo>)
    | Struct(name: string, kind: SyntaxKind, attributes: seq<AttributeInfo>,
             modifiers: seq<string>, fields: seq<FieldInfo>, methods: seq<MethodInfo>)
    | Interface(name: string, kind: SyntaxKind, attributes: seq<AttributeInfo>,
                modifiers: seq<string>, baseInterfaces: seq<string>, methods: seq<MethodInfo>,
                properties: seq<PropertyInfo>)
    | Enum(name: string, kind: SyntaxKind, attributes: seq<AttributeInfo>,
           modifiers: seq<string>, members: seq<EnumMemberInfo>)
    | BaseType(name: string, kind: SyntaxKind, attributes: seq<AttributeInfo>)

  type ClassInfo = t: TypeInfo | t.Class?
    witness Class("", ClassDeclaration, [], [], [], [], [], [], [], [])
  type RecordInfo = t: TypeInfo | t.Record?
    witness Record("", RecordDeclaration, [], [], [], [], [], [], [])
  type StructInfo = t: TypeInfo | t.Struct?
    witness Struct("", StructDeclaration, [], [], [], [])
  type InterfaceInfo = t: TypeInfo | t.Interface?
    witness Interface("", InterfaceDeclaration, [], [], [], [], [])
  type EnumInfo = t: TypeInfo | t.Enum?
    witness Enum("", EnumDeclaration, [], [], [])

  datatype NamespaceInfo = NamespaceInfo(name: string, members: seq<TypeInfo>)

  /** One analysed source file. `classes`, `structs`, `enums` and
      `interfaces` hold the type declarations outside every namespace. */
  datatype FileInfo = FileInfo(
    filePath: string,
    usings: seq<string>,
    namespaces: seq<NamespaceInfo>,
    classes: seq<ClassInfo>,
    structs: seq<StructInfo>,
    enums: seq<EnumInfo>,
    interfaces: seq<InterfaceInfo>,
    rawContent: string,
    assemblyAttributes: seq<AttributeInfo>)

  datatype ProjectAnalysisResult = ProjectAnalysisResult(filesInfo: seq<FileInfo>)

  /** `FileInfo.FolderPath`: computed from `FilePath`, never stored. */
  function FolderPath(f: FileInfo): (folder: string)
    ensures Paths.Separator in f.filePath ==>
      folder + [Paths.Separator] + Paths.FileName(f.filePath) == f.filePath
    ensures Paths.Separator !in f.filePath ==> folder == ""
  {
    Paths.PathSplit(f.filePath);
    Paths.DirectoryName(f.filePath)
  }

  /** The header every type info carries. */
  datatype TypeHeader = TypeHeader(name: string, kind: SyntaxKind, attributes: seq<AttributeInfo>)

  function HeaderOf(t: TypeInfo): TypeHeader
  {
    TypeHeader(t.name, t.kind, t.attributes)
  }

  /** A record info seen as a class info with no events. */
  function RecordAsClass(r: RecordInfo): (c: ClassInfo)
    ensures HeaderOf(c) == HeaderOf(r) && c.events == []
  {
    Class(r.name, r.kind, r.attributes, r.modifiers, r.baseTypes, r.fields, r.properties,
          r.methods, r.constructors, [])
  }

  /** A class info with its events dropped. */
  function ClassAsRecord(c: ClassInfo): (r: RecordInfo)
    ensures HeaderOf(r) == HeaderOf(c)
  {
    Record(c.name, c.kind, c.attributes, c.modifiers, c.baseTypes, c.fields, c.properties,
           c.methods, c.constructors)
  }

  /** A record carries exactly a class's payload without `Events`: the two
      conversions are inverse to each other on event-free classes. */
  lemma RecordIsClassWithoutEvents(r: RecordInfo, c: ClassInfo)
    ensures ClassAsRecord(RecordAsClass(r)) == r
    ensures c.events == [] ==> RecordAsClass(ClassAsRecord(c)) == c
  {
  }
}
