/** The prompt renderer (Core/DocumentationGenerator/Documentation/PromptGenerator.cs).
    Each `Append*` helper is a method that appends to a `StringBuilder`; what
    it appends is specified as a sequence of lines (one per `AppendLine`
    call), rendered by `Text.Render`. The `*Lines` functions below are those
    specifications; the methods are proved to append exactly their rendering. */
module Prompts {
  import opened Wrappers
  import opened ProjectInfo
  import opened Seqs
  import opened TextBuilder
  import Text
  import Paths
  import ErrorRecord

  // ---- Specification: the lines of each section ----

  function HeaderLines(f: FileInfo): seq<string>
  {
    ["File: " + Paths.FileName(f.filePath), "Location: " + f.filePath, ""]
  }

  function UsingLine(u: string): string
  {
    "- " + u
  }

  function UsingsLines(usings: seq<string>): seq<string>
  {
    if |usings| == 0 then [] else ["Imported namespaces:"] + Map(UsingLine, usings) + [""]
  }

  function ArgumentsLine(arguments: seq<string>): string
  {
    "  Arguments: " + Text.Join(", ", arguments)
  }

  /** One attribute: its name, then its arguments if it has any. */
  function AttributeItemLines(a: AttributeInfo): seq<string>
  {
    ["- " + a.name] + (if |a.arguments| > 0 then [ArgumentsLine(a.arguments)] else [])
  }

  function AssemblyLines(attrs: seq<AttributeInfo>): seq<string>
  {
    if |attrs| == 0 then [] else ["Assembly attributes:"] + FlatMap(AttributeItemLines, attrs) + [""]
  }

  function AttributesLines(attrs: seq<AttributeInfo>): seq<string>
  {
    if |attrs| == 0 then [] else ["Attributes:"] + FlatMap(AttributeItemLines, attrs)
  }

  function ModifiersLines(modifiers: seq<string>): seq<string>
  {
    if |modifiers| > 0 then ["Modifiers: " + Text.Join(" ", modifiers)] else []
  }

  function BaseTypesLines(baseTypes: seq<string>, caption: string): seq<string>
  {
    if |baseTypes| > 0 then [caption + ": " + Text.Join(", ", baseTypes)] else []
  }

  function FieldLines(fd: FieldInfo): seq<string>
  {
    ["- " + fd.fieldType + " " + fd.name]
      + (if fd.initializer != "" then ["  Initializer: " + fd.initializer] else [])
  }

  function FieldsLines(fields: seq<FieldInfo>): seq<string>
  {
    if |fields| == 0 then [] else ["", "Fields:"] + FlatMap(FieldLines, fields)
  }

  function PropertyLine(p: PropertyInfo): string
  {
    "- " + p.propertyType + " " + p.name + " { " + p.getter + "/" + p.setter + " }"
  }

  function PropertiesLines(properties: seq<PropertyInfo>): seq<string>
  {
    if |properties| == 0 then [] else ["", "Properties:"] + Map(PropertyLine, properties)
  }

  function ParamSignature(p: ParameterInfo): string
  {
    p.parameterType + " " + p.name
  }

  /** The parameter list inside the parentheses of a signature line. */
  function Signature(ps: seq<ParameterInfo>): string
  {
    Text.Join(", ", Map(ParamSignature, ps))
  }

  function ConstructorParamLines(p: ParameterInfo): seq<string>
  {
    ["  - " + p.parameterType + " " + p.name]
      + (if p.defaultValue != "" then ["    Default: " + p.defaultValue] else [])
  }

  function ConstructorLines(typeName: string, c: ConstructorInfo): seq<string>
  {
    ["- " + typeName + "(" + Signature(c.parameters) + ")"]
      + (if |c.parameters| > 0 then ["  Parameters:"] + FlatMap(ConstructorParamLines, c.parameters) else [])
  }

  /** The lines of each constructor of a type named `typeName`, in order. */
  function ConstructorItems(typeName: string, cs: seq<ConstructorInfo>): seq<string>
  {
    if cs == [] then [] else ConstructorItems(typeName, cs[..|cs| - 1]) + ConstructorLines(typeName, cs[|cs| - 1])
  }

  function ConstructorsLines(cs: seq<ConstructorInfo>, typeName: string): seq<string>
  {
    if |cs| == 0 then [] else ["", "Constructors:"] + ConstructorItems(typeName, cs)
  }

  function MethodParamLine(p: ParameterInfo): string
  {
    "  - " + p.parameterType + " " + p.name
  }

  function MethodLines(m: MethodInfo): seq<string>
  {
    ["- " + m.returnType + " " + m.name + "(" + Signature(m.parameters) + ")"]
      + (if |m.parameters| > 0 then ["  Parameters:"] + Map(MethodParamLine, m.parameters) else [])
      + ["  Body:", m.body]
  }

  function MethodsLines(methods: seq<MethodInfo>): seq<string>
  {
    if |methods| == 0 then [] else ["", "Methods:"] + FlatMap(MethodLines, methods)
  }

  function EventLine(e: EventInfo): string
  {
    "- " + e.eventType + " " + e.name
  }

  function EventsLines(events: seq<EventInfo>): seq<string>
  {
    if |events| == 0 then [] else ["", "Events:"] + Map(EventLine, events)
  }

  /** The sections of a class, a record or a struct after its attributes;
      any other kind has none. */
  function SectionsOf(t: TypeInfo): seq<string>
  {
    match t
    case Class(_, _, _, _, _, _, _, _, _, _) =>
      ModifiersLines(t.modifiers) + BaseTypesLines(t.baseTypes, "Inherits") + FieldsLines(t.fields)
        + PropertiesLines(t.properties) + ConstructorsLines(t.constructors, t.name)
        + MethodsLines(t.methods) + EventsLines(t.events)
    case Record(_, _, _, _, _, _, _, _, _) =>
      ModifiersLines(t.modifiers) + BaseTypesLines(t.baseTypes, "Inherits") + FieldsLines(t.fields)
        + PropertiesLines(t.properties) + ConstructorsLines(t.constructors, t.name)
        + MethodsLines(t.methods)
    case Struct(_, _, _, _, _, _) =>
      ModifiersLines(t.modifiers) + FieldsLines(t.fields) + MethodsLines(t.methods)
    case _ => []
  }

  /** `PrepareTypeInfo(t, typeKind)`: the kind line and the attributes, then
      the sections of a class, a record or a struct. */
  function TypeBlockLines(t: TypeInfo, typeKind: string): seq<string>
  {
    [typeKind + ": " + t.name] + AttributesLines(t.attributes) + SectionsOf(t)
  }

  function InterfaceLines(t: InterfaceInfo): seq<string>
  {
    ["Interface: " + t.name] + ModifiersLines(t.modifiers) + AttributesLines(t.attributes)
      + BaseTypesLines(t.baseInterfaces, "Implements") + MethodsLines(t.methods)
      + PropertiesLines(t.properties)
  }

  function EnumMemberLine(m: EnumMemberInfo): string
  {
    "- " + m.name + " = " + m.value
  }

  /** Unlike the other sections, an enum's member list is written even when empty. */
  function EnumMembersLines(ms: seq<EnumMemberInfo>): seq<string>
  {
    ["", "Members:"] + Map(EnumMemberLine, ms)
  }

  function EnumLines(t: EnumInfo): seq<string>
  {
    ["Enum: " + t.name] + ModifiersLines(t.modifiers) + AttributesLines(t.attributes)
      + EnumMembersLines(t.members)
  }

  /** The text a namespace member contributes; any other kind contributes "". */
  function MemberText(t: TypeInfo): string
  {
    match t
    case Class(_, _, _, _, _, _, _, _, _, _) => Text.Render(TypeBlockLines(t, "Class"))
    case Record(_, _, _, _, _, _, _, _, _) => Text.Render(TypeBlockLines(t, "Record"))
    case Struct(_, _, _, _, _, _) => Text.Render(TypeBlockLines(t, "Struct"))
    case Interface(_, _, _, _, _, _, _) => Text.Render(InterfaceLines(t))
    case Enum(_, _, _, _, _) => Text.Render(EnumLines(t))
    case BaseType(_, _, _) => ""
  }

  /** A namespace: its name line, then each member's text ended by a newline. */
  function NamespaceLines(ns: NamespaceInfo): seq<string>
  {
    ["Namespace: " + ns.name] + Map(MemberText, ns.members)
  }

  function PromptLines(f: FileInfo): seq<string>
  {
    HeaderLines(f) + UsingsLines(f.usings) + AssemblyLines(f.assemblyAttributes)
      + FlatMap(NamespaceLines, f.namespaces)
  }

  /** The prompt for one file. */
  function PromptText(f: FileInfo): string
  {
    Text.Render(PromptLines(f))
  }

  // ---- The renderer ----

  /** Appending one line to text that renders `lines`. */
  lemma Emit(start: string, lines: seq<string>, x: string)
    ensures start + Text.Render(lines) + Text.Render([x]) == start + Text.Render(lines + [x])
  {
    Text.RenderAppend(lines, [x]);
    var a, b := Text.Render(lines), Text.Render([x]);
    Text.ConcatAssoc(start, a, b);
  }

  /** Appending a section to text that renders `lines`. */
  lemma EmitAll(start: string, lines: seq<string>, section: seq<string>)
    ensures start + Text.Render(lines) + Text.Render(section) == start + Text.Render(lines + section)
  {
    Text.RenderAppend(lines, section);
    var a, b := Text.Render(lines), Text.Render(section);
    Text.ConcatAssoc(start, a, b);
  }

  /** Appending a section after a heading and what follows it. */
  lemma EmitAfter(start: string, heading: seq<string>, done: seq<string>, section: seq<string>)
    ensures start + Text.Render(heading + done) + Text.Render(section)
         == start + Text.Render(heading + (done + section))
  {
    var before := heading + done;
    assert before + section == heading + (done + section);
    Text.RenderAppend(before, section);
    var x, y := Text.Render(before), Text.Render(section);
    Text.ConcatAssoc(start, x, y);
  }

  method AppendFileHeader(sb: StringBuilder, f: FileInfo)
    modifies sb
    ensures sb.text == old(sb.text) + Text.Render(HeaderLines(f))
  {
    ghost var start := sb.text;
    sb.AppendLine("File: " + Paths.FileName(f.filePath));
    Emit(start, [], "File: " + Paths.FileName(f.filePath));
    sb.AppendLine("Location: " + f.filePath);
    Emit(start, ["File: " + Paths.FileName(f.filePath)], "Location: " + f.filePath);
    sb.AppendLine("");
    Emit(start, ["File: " + Paths.FileName(f.filePath), "Location: " + f.filePath], "");
  }

  method AppendUsings(sb: StringBuilder, f: FileInfo)
    modifies sb
    ensures sb.text == old(sb.text) + Text.Render(UsingsLines(f.usings))
  {
    if |f.usings| == 0 {
      return;
    }
    ghost var start := sb.text;
    sb.AppendLine("Imported namespaces:");
    Emit(start, [], "Imported namespaces:");
    ghost var emitted := ["Imported namespaces:"];
    for i := 0 to |f.usings|
      invariant emitted == ["Imported namespaces:"] + Map(UsingLine, f.usings[..i])
      invariant sb.text == start + Text.Render(emitted)
    {
      sb.AppendLine("- " + f.usings[i]);
      Emit(start, emitted, "- " + f.usings[i]);
      emitted := emitted + [UsingLine(f.usings[i])];
      assert f.usings[..i + 1] == f.usings[..i] + [f.usings[i]];
      MapAppend(UsingLine, f.usings[..i], [f.usings[i]]);
    }
    sb.AppendLine("");
    Emit(start, emitted, "");
    assert f.usings[..|f.usings|] == f.usings;
  }

  /** The loop shared by the assembly-attribute and attribute sections. */
  method AppendAttributeItems(sb: StringBuilder, attrs: seq<AttributeInfo>)
    modifies sb
    ensures sb.text == old(sb.text) + Text.Render(FlatMap(AttributeItemLines, attrs))
  {
    ghost var start := sb.text;
    ghost var emitted := [];
    for i := 0 to |attrs|
      invariant emitted == FlatMap(AttributeItemLines, attrs[..i])
      invariant sb.text == start + Text.Render(emitted)
    {
      var attr := attrs[i];
      sb.AppendLine("- " + attr.name);
      Emit(start, emitted, "- " + attr.name);
      emitted := emitted + ["- " + attr.name];
      if |attr.arguments| > 0 {
        sb.AppendLine("  Arguments: " + Text.Join(", ", attr.arguments));
        Emit(start, emitted, ArgumentsLine(attr.arguments));
        emitted := emitted + [ArgumentsLine(attr.arguments)];
      }
      FlatMapPrefix(AttributeItemLines, attrs, i);
    }
    assert attrs[..|attrs|] == attrs;
  }

  method AppendAssemblyAttributes(sb: StringBuilder, f: FileInfo)
    modifies sb
    ensures sb.text == old(sb.text) + Text.Render(AssemblyLines(f.assemblyAttributes))
  {
    if |f.assemblyAttributes| == 0 {
      return;
    }
    ghost var start := sb.text;
    ghost var items := FlatMap(AttributeItemLines, f.assemblyAttributes);
    sb.AppendLine("Assembly attributes:");
    Emit(start, [], "Assembly attributes:");
    AppendAttributeItems(sb, f.assemblyAttributes);
    EmitAll(start, ["Assembly attributes:"], items);
    sb.AppendLine("");
    Emit(start, ["Assembly attributes:"] + items, "");
  }

  method AppendAttributes(sb: StringBuilder, attrs: seq<AttributeInfo>)
    modifies sb
    ensures sb.text == old(sb.text) + Text.Render(AttributesLines(attrs))
  {
    if |attrs| == 0 {
      return;
    }
    ghost var start := sb.text;
    sb.AppendLine("Attributes:");
    Emit(start, [], "Attributes:");
    AppendAttributeItems(sb, attrs);
    EmitAll(start, ["Attributes:"], FlatMap(AttributeItemLines, attrs));
  }

  method AppendModifiers(sb: StringBuilder, modifiers: seq<string>)
    modifies sb
    ensures sb.text == old(sb.text) + Text.Render(ModifiersLines(modifiers))
  {
    if |modifiers| > 0 {
      sb.AppendLine("Modifiers: " + Text.Join(" ", modifiers));
    }
  }

  method AppendBaseTypes(sb: StringBuilder, baseTypes: seq<string>, caption: string)
    modifies sb
    ensures sb.text == old(sb.text) + Text.Render(BaseTypesLines(baseTypes, caption))
  {
    if |baseTypes| > 0 {
      sb.AppendLine(caption + ": " + Text.Join(", ", baseTypes));
    }
  }

  method AppendFields(sb: StringBuilder, fields: seq<FieldInfo>)
    modifies sb
    ensures sb.text == old(sb.text) + Text.Render(FieldsLines(fields))
  {
    if |fields| == 0 {
      return;
    }
    ghost var start := sb.text;
    sb.AppendLine("");
    Emit(start, [], "");
    sb.AppendLine("Fields:");
    Emit(start, [""], "Fields:");
    for i := 0 to |fields|
      invariant sb.text == start + Text.Render(["", "Fields:"] + FlatMap(FieldLines, fields[..i]))
    {
      AppendFieldAt(sb, fields, i, start);
    }
    assert fields[..|fields|] == fields;
  }

  /** The body of the field loop: one field's lines. */
  method AppendField(sb: StringBuilder, field: FieldInfo)
    modifies sb
    ensures sb.text == old(sb.text) + Text.Render(FieldLines(field))
  {
    ghost var start := sb.text;
    var head := "- " + field.fieldType + " " + field.name;
    sb.AppendLine(head);
    Emit(start, [], head);
    if field.initializer != "" {
      sb.AppendLine("  Initializer: " + field.initializer);
      Emit(start, [head], "  Initializer: " + field.initializer);
    }
  }

  /** One pass of the field loop. */
  method AppendFieldAt(sb: StringBuilder, fields: seq<FieldInfo>, i: nat, ghost start: string)
    requires i < |fields|
    requires sb.text == start + Text.Render(["", "Fields:"] + FlatMap(FieldLines, fields[..i]))
    modifies sb
    ensures sb.text == start + Text.Render(["", "Fields:"] + FlatMap(FieldLines, fields[..i + 1]))
  {
    ghost var done := FlatMap(FieldLines, fields[..i]);
    AppendField(sb, fields[i]);
    EmitAfter(start, ["", "Fields:"], done, FieldLines(fields[i]));
    FlatMapPrefix(FieldLines, fields, i);
  }

  method AppendProperties(sb: StringBuilder, properties: seq<PropertyInfo>)
    modifies sb
    ensures sb.text == old(sb.text) + Text.Render(PropertiesLines(properties))
  {
    if |properties| == 0 {
      return;
    }
    ghost var start := sb.text;
    sb.AppendLine("");
    Emit(start, [], "");
    sb.AppendLine("Properties:");
    Emit(start, [""], "Properties:");
    ghost var emitted := ["", "Properties:"];
    for i := 0 to |properties|
      invariant emitted == ["", "Properties:"] + Map(PropertyLine, properties[..i])
      invariant sb.text == start + Text.Render(emitted)
    {
      var prop := properties[i];
      sb.AppendLine("- " + prop.propertyType + " " + prop.name + " { " + prop.getter + "/" + prop.setter + " }");
      Emit(start, emitted, PropertyLine(prop));
      emitted := emitted + [PropertyLine(prop)];
      assert properties[..i + 1] == properties[..i] + [prop];
      MapAppend(PropertyLine, properties[..i], [prop]);
    }
    assert properties[..|properties|] == properties;
  }

  /** The parameter loop of one constructor. */
  method AppendConstructorParameters(sb: StringBuilder, ps: seq<ParameterInfo>)
    modifies sb
    ensures sb.text == old(sb.text) + Text.Render(FlatMap(ConstructorParamLines, ps))
  {
    ghost var start := sb.text;
    ghost var emitted := [];
    for j := 0 to |ps|
      invariant emitted == FlatMap(ConstructorParamLines, ps[..j])
      invariant sb.text == start + Text.Render(emitted)
    {
      var param := ps[j];
      sb.AppendLine("  - " + param.parameterType + " " + param.name);
      Emit(start, emitted, "  - " + param.parameterType + " " + param.name);
      emitted := emitted + ["  - " + param.parameterType + " " + param.name];
      if param.defaultValue != "" {
        sb.AppendLine("    Default: " + param.defaultValue);
        Emit(start, emitted, "    Default: " + param.defaultValue);
        emitted := emitted + ["    Default: " + param.defaultValue];
      }
      FlatMapPrefix(ConstructorParamLines, ps, j);
    }
    assert ps[..|ps|] == ps;
  }

  /** The body of the constructor loop: one constructor's lines. */
  method AppendConstructor(sb: StringBuilder, typeName: string, ctor: ConstructorInfo)
    modifies sb
    ensures sb.text == old(sb.text) + Text.Render(ConstructorLines(typeName, ctor))
  {
    ghost var start := sb.text;
    var head := "- " + typeName + "(" + Signature(ctor.parameters) + ")";
    sb.AppendLine(head);
    Emit(start, [], head);
    if |ctor.parameters| > 0 {
      sb.AppendLine("  Parameters:");
      Emit(start, [head], "  Parameters:");
      AppendConstructorParameters(sb, ctor.parameters);
      EmitAll(start, [head, "  Parameters:"], FlatMap(ConstructorParamLines, ctor.parameters));
    }
  }

  /** One pass of the constructor loop. */
  method AppendConstructorAt(sb: StringBuilder, constructors: seq<ConstructorInfo>, typeName: string, i: nat,
                             ghost start: string)
    requires i < |constructors|
    requires sb.text == start + Text.Render(["", "Constructors:"] + ConstructorItems(typeName, constructors[..i]))
    modifies sb
    ensures sb.text == start + Text.Render(["", "Constructors:"] + ConstructorItems(typeName, constructors[..i + 1]))
  {
    ghost var done := ConstructorItems(typeName, constructors[..i]);
    ghost var lines := ConstructorLines(typeName, constructors[i]);
    AppendConstructor(sb, typeName, constructors[i]);
    EmitAfter(start, ["", "Constructors:"], done, lines);
    ConstructorItemsSnoc(typeName, constructors, i);
  }

  lemma ConstructorItemsSnoc(typeName: string, cs: seq<ConstructorInfo>, i: nat)
    requires i < |cs|
    ensures ConstructorItems(typeName, cs[..i + 1]) == ConstructorItems(typeName, cs[..i]) + ConstructorLines(typeName, cs[i])
  {
    assert cs[..i + 1][..i] == cs[..i];
  }

  method AppendConstructors(sb: StringBuilder, constructors: seq<ConstructorInfo>, typeName: string)
    modifies sb
    ensures sb.text == old(sb.text) + Text.Render(ConstructorsLines(constructors, typeName))
  {
    if |constructors| == 0 {
      return;
    }
    ghost var start := sb.text;
    sb.AppendLine("");
    Emit(start, [], "");
    sb.AppendLine("Constructors:");
    Emit(start, [""], "Constructors:");
    for i := 0 to |constructors|
      invariant sb.text == start + Text.Render(["", "Constructors:"] + ConstructorItems(typeName, constructors[..i]))
    {
      AppendConstructorAt(sb, constructors, typeName, i, start);
    }
    assert constructors[..|constructors|] == constructors;
  }

  /** The parameter loop of one method: no defaults are shown. */
  method AppendMethodParameters(sb: StringBuilder, ps: seq<ParameterInfo>)
    modifies sb
    ensures sb.text == old(sb.text) + Text.Render(Map(MethodParamLine, ps))
  {
    ghost var start := sb.text;
    ghost var emitted := [];
    for j := 0 to |ps|
      invariant emitted == Map(MethodParamLine, ps[..j])
      invariant sb.text == start + Text.Render(emitted)
    {
      sb.AppendLine("  - " + ps[j].parameterType + " " + ps[j].name);
      Emit(start, emitted, MethodParamLine(ps[j]));
      emitted := emitted + [MethodParamLine(ps[j])];
      assert ps[..j + 1] == ps[..j] + [ps[j]];
      MapAppend(MethodParamLine, ps[..j], [ps[j]]);
    }
    assert ps[..|ps|] == ps;
  }

  /** The body of the method loop: one method's lines. */
  method AppendMethod(sb: StringBuilder, m: MethodInfo)
    modifies sb
    ensures sb.text == old(sb.text) + Text.Render(MethodLines(m))
  {
    ghost var start := sb.text;
    var head := "- " + m.returnType + " " + m.name + "(" + Signature(m.parameters) + ")";
    sb.AppendLine(head);
    Emit(start, [], head);
    ghost var emitted := [head];
    if |m.parameters| > 0 {
      sb.AppendLine("  Parameters:");
      Emit(start, emitted, "  Parameters:");
      AppendMethodParameters(sb, m.parameters);
      EmitAll(start, [head, "  Parameters:"], Map(MethodParamLine, m.parameters));
      emitted := [head, "  Parameters:"] + Map(MethodParamLine, m.parameters);
    }
    sb.AppendLine("  Body:");
    Emit(start, emitted, "  Body:");
    sb.AppendLine(m.body);
    Emit(start, emitted + ["  Body:"], m.body);
    assert MethodLines(m) == emitted + ["  Body:"] + [m.body];
  }

  method AppendMethods(sb: StringBuilder, methods: seq<MethodInfo>)
    modifies sb
    ensures sb.text == old(sb.text) + Text.Render(MethodsLines(methods))
  {
    if |methods| == 0 {
      return;
    }
    ghost var start := sb.text;
    sb.AppendLine("");
    Emit(start, [], "");
    sb.AppendLine("Methods:");
    Emit(start, [""], "Methods:");
    for i := 0 to |methods|
      invariant sb.text == start + Text.Render(["", "Methods:"] + FlatMap(MethodLines, methods[..i]))
    {
      AppendMethodAt(sb, methods, i, start);
    }
    assert methods[..|methods|] == methods;
  }

  /** One pass of the method loop. */
  method AppendMethodAt(sb: StringBuilder, methods: seq<MethodInfo>, i: nat, ghost start: string)
    requires i < |methods|
    requires sb.text == start + Text.Render(["", "Methods:"] + FlatMap(MethodLines, methods[..i]))
    modifies sb
    ensures sb.text == start + Text.Render(["", "Methods:"] + FlatMap(MethodLines, methods[..i + 1]))
  {
    ghost var done := FlatMap(MethodLines, methods[..i]);
    AppendMethod(sb, methods[i]);
    EmitAfter(start, ["", "Methods:"], done, MethodLines(methods[i]));
    FlatMapPrefix(MethodLines, methods, i);
  }

  method AppendEvents(sb: StringBuilder, events: seq<EventInfo>)
    modifies sb
    ensures sb.text == old(sb.text) + Text.Render(EventsLines(events))
  {
    if |events| == 0 {
      return;
    }
    ghost var start := sb.text;
    sb.AppendLine("");
    Emit(start, [], "");
    sb.AppendLine("Events:");
    Emit(start, [""], "Events:");
    ghost var emitted := ["", "Events:"];
    for i := 0 to |events|
      invariant emitted == ["", "Events:"] + Map(EventLine, events[..i])
      invariant sb.text == start + Text.Render(emitted)
    {
      sb.AppendLine("- " + events[i].eventType + " " + events[i].name);
      Emit(start, emitted, EventLine(events[i]));
      emitted := emitted + [EventLine(events[i])];
      assert events[..i + 1] == events[..i] + [events[i]];
      MapAppend(EventLine, events[..i], [events[i]]);
    }
    assert events[..|events|] == events;
  }

  method AppendClassSections(sb: StringBuilder, t: TypeInfo)
    requires t.Class?
    modifies sb
    ensures sb.text == old(sb.text) + Text.Render(SectionsOf(t))
  {
    ghost var start := sb.text;
    AppendModifiers(sb, t.modifiers);
    ghost var acc := ModifiersLines(t.modifiers);
    assert sb.text == start + Text.Render(acc);
    AppendBaseTypes(sb, t.baseTypes, "Inherits");
    EmitAll(start, acc, BaseTypesLines(t.baseTypes, "Inherits"));
    acc := acc + BaseTypesLines(t.baseTypes, "Inherits");
    AppendFields(sb, t.fields);
    EmitAll(start, acc, FieldsLines(t.fields));
    acc := acc + FieldsLines(t.fields);
    AppendProperties(sb, t.properties);
    EmitAll(start, acc, PropertiesLines(t.properties));
    acc := acc + PropertiesLines(t.properties);
    AppendConstructors(sb, t.constructors, t.name);
    EmitAll(start, acc, ConstructorsLines(t.constructors, t.name));
    acc := acc + ConstructorsLines(t.constructors, t.name);
    AppendMethods(sb, t.methods);
    EmitAll(start, acc, MethodsLines(t.methods));
    acc := acc + MethodsLines(t.methods);
    AppendEvents(sb, t.events);
    EmitAll(start, acc, EventsLines(t.events));
  }

  method AppendRecordSections(sb: StringBuilder, t: TypeInfo)
    requires t.Record?
    modifies sb
    ensures sb.text == old(sb.text) + Text.Render(SectionsOf(t))
  {
    ghost var start := sb.text;
    AppendModifiers(sb, t.modifiers);
    ghost var acc := ModifiersLines(t.modifiers);
    assert sb.text == start + Text.Render(acc);
    AppendBaseTypes(sb, t.baseTypes, "Inherits");
    EmitAll(start, acc, BaseTypesLines(t.baseTypes, "Inherits"));
    acc := acc + BaseTypesLines(t.baseTypes, "Inherits");
    AppendFields(sb, t.fields);
    EmitAll(start, acc, FieldsLines(t.fields));
    acc := acc + FieldsLines(t.fields);
    AppendProperties(sb, t.properties);
    EmitAll(start, acc, PropertiesLines(t.properties));
    acc := acc + PropertiesLines(t.properties);
    AppendConstructors(sb, t.constructors, t.name);
    EmitAll(start, acc, ConstructorsLines(t.constructors, t.name));
    acc := acc + ConstructorsLines(t.constructors, t.name);
    AppendMethods(sb, t.methods);
    EmitAll(start, acc, MethodsLines(t.methods));
  }

  method AppendStructSections(sb: StringBuilder, t: TypeInfo)
    requires t.Struct?
    modifies sb
    ensures sb.text == old(sb.text) + Text.Render(SectionsOf(t))
  {
    ghost var start := sb.text;
    AppendModifiers(sb, t.modifiers);
    ghost var acc := ModifiersLines(t.modifiers);
    assert sb.text == start + Text.Render(acc);
    AppendFields(sb, t.fields);
    EmitAll(start, acc, FieldsLines(t.fields));
    acc := acc + FieldsLines(t.fields);
    AppendMethods(sb, t.methods);
    EmitAll(start, acc, MethodsLines(t.methods));
  }

  method PrepareTypeInfo(t: TypeInfo, typeKind: string) returns (r: string)
    ensures r == Text.Render(TypeBlockLines(t, typeKind))
  {
    var sb := new StringBuilder();
    ghost var start := sb.text;
    sb.AppendLine(typeKind + ": " + t.name);
    Emit(start, [], typeKind + ": " + t.name);
    AppendAttributes(sb, t.attributes);
    EmitAll(start, [typeKind + ": " + t.name], AttributesLines(t.attributes));
    ghost var head := [typeKind + ": " + t.name] + AttributesLines(t.attributes);
    match t {
      case Class(_, _, _, _, _, _, _, _, _, _) =>
        AppendClassSections(sb, t);
      case Record(_, _, _, _, _, _, _, _, _) =>
        AppendRecordSections(sb, t);
      case Struct(_, _, _, _, _, _) =>
        AppendStructSections(sb, t);
      case _ =>
        assert SectionsOf(t) == [];
        assert sb.text == start + Text.Render(head) + Text.Render(SectionsOf(t));
    }
    EmitAll(start, head, SectionsOf(t));
    assert start == "";
    r := sb.text;
  }

  method PrepareInterfaceInfo(t: InterfaceInfo) returns (r: string)
    ensures r == Text.Render(InterfaceLines(t))
  {
    var sb := new StringBuilder();
    ghost var start := sb.text;
    sb.AppendLine("Interface: " + t.name);
    Emit(start, [], "Interface: " + t.name);
    ghost var acc := ["Interface: " + t.name];
    AppendModifiers(sb, t.modifiers);
    EmitAll(start, acc, ModifiersLines(t.modifiers));
    acc := acc + ModifiersLines(t.modifiers);
    AppendAttributes(sb, t.attributes);
    EmitAll(start, acc, AttributesLines(t.attributes));
    acc := acc + AttributesLines(t.attributes);
    AppendBaseTypes(sb, t.baseInterfaces, "Implements");
    EmitAll(start, acc, BaseTypesLines(t.baseInterfaces, "Implements"));
    acc := acc + BaseTypesLines(t.baseInterfaces, "Implements");
    AppendMethods(sb, t.methods);
    EmitAll(start, acc, MethodsLines(t.methods));
    acc := acc + MethodsLines(t.methods);
    AppendProperties(sb, t.properties);
    EmitAll(start, acc, PropertiesLines(t.properties));
    assert start == "";
    r := sb.text;
  }

  method PrepareEnumInfo(t: EnumInfo) returns (r: string)
    ensures r == Text.Render(EnumLines(t))
  {
    var sb := new StringBuilder();
    ghost var start := sb.text;
    sb.AppendLine("Enum: " + t.name);
    Emit(start, [], "Enum: " + t.name);
    ghost var emitted := ["Enum: " + t.name];
    AppendModifiers(sb, t.modifiers);
    EmitAll(start, emitted, ModifiersLines(t.modifiers));
    emitted := emitted + ModifiersLines(t.modifiers);
    AppendAttributes(sb, t.attributes);
    EmitAll(start, emitted, AttributesLines(t.attributes));
    emitted := emitted + AttributesLines(t.attributes);
    AppendEnumMembers(sb, t.members);
    EmitAll(start, emitted, EnumMembersLines(t.members));
    assert start == "";
    r := sb.text;
  }

  /** The blank line, the "Members:" heading and the member loop of an enum. */
  method AppendEnumMembers(sb: StringBuilder, ms: seq<EnumMemberInfo>)
    modifies sb
    ensures sb.text == old(sb.text) + Text.Render(EnumMembersLines(ms))
  {
    ghost var start := sb.text;
    sb.AppendLine("");
    Emit(start, [], "");
    sb.AppendLine("Members:");
    Emit(start, [""], "Members:");
    ghost var emitted := ["", "Members:"];
    assert ["", "Members:"] == [""] + ["Members:"];
    for i := 0 to |ms|
      invariant emitted == ["", "Members:"] + Map(EnumMemberLine, ms[..i])
      invariant sb.text == start + Text.Render(emitted)
    {
      sb.AppendLine("- " + ms[i].name + " = " + ms[i].value);
      Emit(start, emitted, EnumMemberLine(ms[i]));
      emitted := emitted + [EnumMemberLine(ms[i])];
      assert ms[..i + 1] == ms[..i] + [ms[i]];
      MapAppend(EnumMemberLine, ms[..i], [ms[i]]);
    }
    assert ms[..|ms|] == ms;
  }

  /** The `switch` on the member's runtime type. */
  method PrepareMember(member: TypeInfo) returns (r: string)
    ensures r == MemberText(member)
  {
    match member {
      case Class(_, _, _, _, _, _, _, _, _, _) => r := PrepareTypeInfo(member, "Class");
      case Record(_, _, _, _, _, _, _, _, _) => r := PrepareTypeInfo(member, "Record");
      case Struct(_, _, _, _, _, _) => r := PrepareTypeInfo(member, "Struct");
      case Interface(_, _, _, _, _, _, _) => r := PrepareInterfaceInfo(member);
      case Enum(_, _, _, _, _) => r := PrepareEnumInfo(member);
      case BaseType(_, _, _) => r := "";
    }
  }

  /** `Append(x)` followed by `AppendLine()` renders the line `x`. */
  lemma LineByParts(before: string, x: string)
    ensures before + x + Text.Render([""]) == before + Text.Render([x])
  {
    assert Text.Render([""]) == "\n";
    assert Text.Render([x]) == x + "\n";
  }

  /** One namespace: its name line, then each member's text and a newline. */
  method AppendNamespace(sb: StringBuilder, ns: NamespaceInfo)
    modifies sb
    ensures sb.text == old(sb.text) + Text.Render(NamespaceLines(ns))
  {
    ghost var start := sb.text;
    ghost var texts := Map(MemberText, ns.members);
    sb.AppendLine("Namespace: " + ns.name);
    Emit(start, [], "Namespace: " + ns.name);
    assert texts[..0] == [];
    for k := 0 to |ns.members|
      invariant sb.text == start + Text.Render(["Namespace: " + ns.name] + texts[..k])
    {
      var text := PrepareMember(ns.members[k]);
      AppendTextLine(sb, start, ["Namespace: " + ns.name], texts, k, text);
    }
    assert texts[..|texts|] == texts;
  }

  /** One pass of the member loop: `Append(text)`, then `AppendLine()`, where
      `text` is the `k`-th of the lines `texts`. */
  method AppendTextLine(sb: StringBuilder, ghost start: string, ghost heading: seq<string>,
                        ghost texts: seq<string>, k: nat, text: string)
    requires k < |texts| && text == texts[k]
    requires sb.text == start + Text.Render(heading + texts[..k])
    modifies sb
    ensures sb.text == start + Text.Render(heading + texts[..k + 1])
  {
    ghost var before := sb.text;
    sb.Append(text);
    sb.AppendLine("");
    LineByParts(before, text);
    EmitAfter(start, heading, texts[..k], [text]);
    assert texts[..k + 1] == texts[..k] + [text];
  }

  method AppendNamespaces(sb: StringBuilder, f: FileInfo)
    modifies sb
    ensures sb.text == old(sb.text) + Text.Render(FlatMap(NamespaceLines, f.namespaces))
  {
    ghost var start := sb.text;
    var nss := f.namespaces;
    ghost var emitted := [];
    for i := 0 to |nss|
      invariant emitted == FlatMap(NamespaceLines, nss[..i])
      invariant sb.text == start + Text.Render(emitted)
    {
      AppendNamespace(sb, nss[i]);
      EmitAll(start, emitted, NamespaceLines(nss[i]));
      emitted := emitted + NamespaceLines(nss[i]);
      FlatMapPrefix(NamespaceLines, nss, i);
    }
    assert nss[..|nss|] == nss;
  }

  /** `PreparePrompt`: nothing in the rendering can fail, so the result is
      always the rendered prompt. */
  method PreparePrompt(f: FileInfo) returns (r: Result<string, ErrorRecord.Error>)
    ensures r == Ok(PromptText(f))
  {
    var sb := new StringBuilder();
    ghost var start := sb.text;
    AppendFileHeader(sb, f);
    ghost var acc := HeaderLines(f);
    AppendUsings(sb, f);
    EmitAll(start, acc, UsingsLines(f.usings));
    acc := acc + UsingsLines(f.usings);
    AppendAssemblyAttributes(sb, f);
    EmitAll(start, acc, AssemblyLines(f.assemblyAttributes));
    acc := acc + AssemblyLines(f.assemblyAttributes);
    AppendNamespaces(sb, f);
    EmitAll(start, acc, FlatMap(NamespaceLines, f.namespaces));
    assert start == "";
    assert sb.text == Text.Render(HeaderLines(f) + UsingsLines(f.usings) + AssemblyLines(f.assemblyAttributes)
      + FlatMap(NamespaceLines, f.namespaces));
    r := Ok(sb.text);
  }
}
