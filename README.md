# DocuMate core, modelled in Dafny

DocuMate documents a .NET solution with a language model. The pipeline has
five stages:

1. **Analysis.** The project analyser (`DotnetProjectAnalyzer`) checks that
   the project root holds a `.sln` file. It collects every `.cs` file outside
   `bin`, `obj`, `.git`, `packages` and `node_modules`, reads each file and
   walks its syntax tree into a `FileInfo`: usings, assembly attributes,
   namespaces, classes, records, structs, interfaces, enums and their members.
   As written, the assembly-attribute filter keeps no list, so that field is
   always empty (see "## Findings").
2. **Prompts.** The prompt generator (`PromptGenerator`) renders each
   `FileInfo` line by line into a text prompt.
3. **Generation.** The documentation generator (`LlamaDocsGenerator`) opens a
   chat and sends the fixed documentation template
   (`DotnetDocumentationTemplate`). It then sends one prompt per file and
   joins the streamed tokens of each reply into a document. A file whose
   prompt or reply fails is skipped.
4. **Sync.** The files processor (`FilesProcessor`) replaces a project's
   artefacts. It reads the project bucket's file names from the metadata
   store (`FilesRepository`, MongoDB) and removes the bucket from the object
   store (`MinioProvider`, MinIO). It deletes the bucket's metadata rows,
   then uploads each document as `<name>.md`, trimmed to start at
   `# File Overview`, and records a metadata row for it.
5. **Sequencing.** The processor (`Processor`) runs analysis, then
   generation.

Errors travel as values of the `Error` record (code, message, type), as in
the source.

## How the model is organised

Each core file has its own module:

- `Analyzer` for the analyser.
- `Prompts` for the prompt generator, with `TextBuilder.StringBuilder` as the
  builder it appends to.
- `DocTemplate` for the template.
- `DocsGeneration` for the generator.
- `ObjectStore` for `MinioProvider`.
- `MetadataStore` for `FilesRepository`.
- `Sync` for `FilesProcessor`.
- `Pipeline` for `Processor`.
- `ProjectInfo` for the domain records.
- `ErrorRecord` and `Errors` for the error types.

The companion modules `AnalyzerFacts`, `PromptFacts`, `GenerationFacts` and
`SyncFacts` hold the lemmas. `Text`, `Paths` and `Seqs` model the string,
path and list operations of the .NET library that these files use.

Code that loops in the source is a method with a loop, proved equal to a
specification function. Examples are the member loops of the parsers, the
`StringBuilder` appends, the token join and the upload loop. The stores
update their state in place, so they are classes whose methods modify their
fields. Every method states its result and new state through that
specification function. The companion lemmas prove what the function
means.

The abstract syntax tree (`Syntax`) stands for the part of the Roslyn tree
the analyser looks at.

The project loop (`Analyzer.AnalyzeFiles`, `Analyzer.AnalysisOf`) takes the
per-file analysis as a parameter. `Analyzer.AnalyzeProject` runs it with
`Analyzer.Analyzed(parse)`, the file info that `AnalyzeFile` builds. The
lemmas about the loop hold for every per-file analysis, so they hold for
that one.

Effects outside the program become parameters:

| effect | parameter |
|---|---|
| File reads | a `read` oracle |
| Parsing | a `parse` oracle |
| Directory listing | a `ProjectDirectory` value |
| The chat client | a function from (history, message) to a streamed reply |
| Store exceptions | fault oracles on each client call |
| `Guid.NewGuid` and `DateTime.UtcNow` | functions of the loop index |

Where the code disagrees with its own declarations, the model follows the
code that runs:

- The generator iterates `FilesByFolder`, but `ProjectAnalysisResult` in
  `Domain/ProjectInfo.cs:5-8` declares only `FilesInfo`. The model iterates
  `FilesInfo`.
- `IDocumentationGenerator.cs:9` declares a result of type
  `Dictionary<string, string>`. The model's generator returns the list of
  documents in file order instead, not a dictionary keyed by file.
- `Processor.Process` ignores the generator's result and never calls the
  files processor. The model states this outright (`Pipeline.Process`,
  `Pipeline.GeneratorOutcomeIgnored`).
- Empty prompt sections (no usings, no fields, and so on) are omitted, as
  the code's `if (… .Count > 0)` guards do.
- `PreparePrompt`'s catch clause (`generation.prompt`) cannot be reached:
  nothing inside the `try` throws in the model. So `PreparePrompt` always
  succeeds.
- A `.cs` file is excluded when its path contains `/bin/`, `/obj/`, and so
  on. If the project root itself lies under such a directory, every file is
  excluded (`AnalyzerFacts.ExcludedRootHidesEverything`). This is how the
  code behaves.

## Model

| member | source | states |
|---|---|---|
| ErrorRecord.NewError | Domain/Errors/Error.cs:5-11 | the record's constructor stores code, message and type, and `InvalidField` defaults to none |
| ErrorRecord.Failure | Domain/Errors/Error.cs:21-22 | a failure error keeps the given code and message, has type `Failure` and no invalid field |
| ErrorRecord.NotFound | Domain/Errors/Error.cs:24-25 | a not-found error keeps the given code and message, has type `NotFound` and no invalid field |
| ErrorRecord.FactoriesAreInjectiveAndDisjoint | Domain/Errors/Error.cs:21-25 | failure and not-found errors never coincide; each factory is injective in (code, message) |
| ErrorRecord.ErrorEquality | Domain/Errors/Error.cs:3-19 | record equality of errors is equality of all four properties |
| Errors.NotFound | Domain/Errors/Errors.cs:5-9 | the code is `record.not.found`, the type `NotFound`, and the message starts with the name or with "value" |
| Errors.NotFoundWithoutId | Domain/Errors/Errors.cs:7-8 | without an id the message is exactly "<name> not found", or "value not found" without a name |
| Errors.NotFoundWithId | Domain/Errors/Errors.cs:7-8 | with an id the message is exactly "<name> not found for Id '<id>" ("value" when there is no name), so it ends with the id: the closing quote is missing, as in the source |
| ProjectInfo.FolderPath | Domain/ProjectInfo.cs:13 | the folder joined with the file name by the separator gives back the path; a path without a separator has folder "" |
| ProjectInfo.RecordAsClass | Domain/ProjectInfo.cs:37-61 | a record viewed as a class keeps name, kind and attributes and has no events |
| ProjectInfo.ClassAsRecord | Domain/ProjectInfo.cs:37-61 | a class viewed as a record keeps name, kind and attributes |
| ProjectInfo.RecordIsClassWithoutEvents | Domain/ProjectInfo.cs:37-61 | `RecordInfo` carries exactly the members of `ClassInfo` minus the events: the two views are inverse |
| Paths.LastIndexOf | Core/DocumentationGenerator/FilesProcessor.cs:26 | the result is the last position holding the separator, or -1 when none does |
| Paths.PathSplit | Core/DocumentationGenerator/FilesProcessor.cs:26 | `Path.GetFileName` has no separator; directory + separator + file name restores the path |
| Paths.FileNameIsSuffix | Core/DocumentationGenerator/FilesProcessor.cs:45 | the file name is a suffix of the path |
| Text.IndexOf | Core/DocumentationGenerator/FilesProcessor.cs:50-52 | ordinal `IndexOf`: -1 exactly when the pattern is absent, otherwise the first occurrence |
| Text.IndexOfFrom | Core/DocumentationGenerator/FilesProcessor.cs:50-52 | the search from a start position finds the first occurrence at or after it, or -1 |
| Text.IndexOfAtStart | Core/DocumentationGenerator/FilesProcessor.cs:50-52 | a text starting with the pattern has it at index 0 |
| Text.ReplaceAll | Core/DocumentationGenerator/FilesProcessor.cs:45 | replacing by a string of the same length keeps the length |
| Text.Utf8Length | Core/DocumentationGenerator/FilesProcessor.cs:47-54 | the UTF-8 byte count lies between the character count and four times it |
| Text.Utf8Width | Core/DocumentationGenerator/FilesProcessor.cs:68 | each scalar value encodes to one to four bytes |
| Text.Utf8LengthAppend | Core/DocumentationGenerator/FilesProcessor.cs:54 | the written byte count is additive over concatenation |
| Text.Utf8LengthAscii | Core/DocumentationGenerator/FilesProcessor.cs:68 | for ASCII text `FileSize` equals the character count |
| Text.JoinEmptyIsConcat | Core/DocumentationGenerator/Documentation/LlamaDocsGenerator.cs:102 | `string.Join("", tokens)` is the plain concatenation of the tokens |
| Text.RenderAppend | Core/DocumentationGenerator/Documentation/PromptGenerator.cs:24-31 | the text of two runs of `AppendLine` is the concatenation of their texts |
| TextBuilder.StringBuilder.constructor | Core/DocumentationGenerator/Documentation/PromptGenerator.cs:24 | a new builder is empty |
| TextBuilder.StringBuilder.Append | Core/DocumentationGenerator/Documentation/PromptGenerator.cs:81-89 | `Append` extends the text by exactly its argument |
| TextBuilder.StringBuilder.AppendLine | Core/DocumentationGenerator/Documentation/PromptGenerator.cs:44-46 | `AppendLine` extends the text by its argument and one newline |
| Analyzer.ParseFields | Core/DocumentationGenerator/CodeParsing/Analyzers/DotnetProjectAnalyzer.cs:331-341 | one field info per declared variable, in order, each with the declaration's type, modifiers and attributes and its own initializer or "" |
| Analyzer.FirstAccessor | Core/DocumentationGenerator/CodeParsing/Analyzers/DotnetProjectAnalyzer.cs:350-351 | a found accessor is in the list and of the asked kind; none found means no accessor of that kind exists |
| Analyzer.ParseClass | Core/DocumentationGenerator/CodeParsing/Analyzers/DotnetProjectAnalyzer.cs:191-225 | the member loop builds, in one pass, the class info whose contents `AnalyzerFacts.ClassKeepsMembers` characterises |
| Analyzer.ParseRecord | Core/DocumentationGenerator/CodeParsing/Analyzers/DotnetProjectAnalyzer.cs:227-258 | the member loop builds the record info (fields, properties, methods, constructors; events ignored) |
| Analyzer.ParseStruct | Core/DocumentationGenerator/CodeParsing/Analyzers/DotnetProjectAnalyzer.cs:260-284 | the member loop builds the struct info (fields and methods only) |
| Analyzer.ParseInterface | Core/DocumentationGenerator/CodeParsing/Analyzers/DotnetProjectAnalyzer.cs:286-311 | the member loop builds the interface info (methods and properties only) |
| Analyzer.ParseBaseType | Core/DocumentationGenerator/CodeParsing/Analyzers/DotnetProjectAnalyzer.cs:173-189 | dispatch on the declaration kind; an unknown kind gives a bare base-type info |
| Analyzer.ParseNamespaceMembers | Core/DocumentationGenerator/CodeParsing/Analyzers/DotnetProjectAnalyzer.cs:139-152 | the namespace info lists one parsed type per direct type member, in order |
| Analyzer.ParseNamespace | Core/DocumentationGenerator/CodeParsing/Analyzers/DotnetProjectAnalyzer.cs:139-152 | a block namespace is parsed by the shared member loop |
| Analyzer.AddTypeToResult | Core/DocumentationGenerator/CodeParsing/Analyzers/DotnetProjectAnalyzer.cs:154-171 | a top-level class, struct, interface or enum is appended to its own list; other kinds leave the file unchanged |
| Analyzer.AnalyzeFile | Core/DocumentationGenerator/CodeParsing/Analyzers/DotnetProjectAnalyzer.cs:64-120 | block namespaces, then the first file-scoped namespace, then the top-level types; the assembly attributes are those filtered as the code writes it, which is none; the result's shape is in `AnalyzerFacts.AnalyzedFileShape` |
| Analyzer.FailureStops | Core/DocumentationGenerator/CodeParsing/Analyzers/DotnetProjectAnalyzer.cs:37-51 | once a prefix of the file loop has failed, the later files cannot change the outcome |
| Analyzer.AnalyzeProject | Core/DocumentationGenerator/CodeParsing/Analyzers/DotnetProjectAnalyzer.cs:23-54 | the loop returns what `AnalysisOf` specifies: the solution gate, then files in order, aborting at the first unreadable file |
| AnalyzerFacts.MethodsSelected | Core/DocumentationGenerator/CodeParsing/Analyzers/DotnetProjectAnalyzer.cs:356-367 | the methods collected are exactly the parsed method declarations of the member list, in order |
| AnalyzerFacts.PropertiesSelected | Core/DocumentationGenerator/CodeParsing/Analyzers/DotnetProjectAnalyzer.cs:343-354 | the properties collected are exactly the parsed property declarations, in order |
| AnalyzerFacts.ConstructorsSelected | Core/DocumentationGenerator/CodeParsing/Analyzers/DotnetProjectAnalyzer.cs:369-378 | the constructors collected are exactly the parsed constructor declarations, in order |
| AnalyzerFacts.EventsSelected | Core/DocumentationGenerator/CodeParsing/Analyzers/DotnetProjectAnalyzer.cs:380-389 | the events collected are exactly the parsed event declarations, in order |
| AnalyzerFacts.FieldsSelected | Core/DocumentationGenerator/CodeParsing/Analyzers/DotnetProjectAnalyzer.cs:331-341 | the fields collected are the field infos of the field declarations, in order |
| AnalyzerFacts.ClassKeepsMembers | Core/DocumentationGenerator/CodeParsing/Analyzers/DotnetProjectAnalyzer.cs:202-222 | a class keeps every field, property, method, constructor and event declaration, each list in source order |
| AnalyzerFacts.RecordKeepsMembers | Core/DocumentationGenerator/CodeParsing/Analyzers/DotnetProjectAnalyzer.cs:238-255 | a record keeps every field, property, method and constructor declaration in order |
| AnalyzerFacts.StructKeepsMembers | Core/DocumentationGenerator/CodeParsing/Analyzers/DotnetProjectAnalyzer.cs:270-281 | a struct keeps every field and method declaration in order |
| AnalyzerFacts.InterfaceKeepsMembers | Core/DocumentationGenerator/CodeParsing/Analyzers/DotnetProjectAnalyzer.cs:297-308 | an interface keeps every method and property declaration in order |
| AnalyzerFacts.TypeHeaderFromDeclaration | Core/DocumentationGenerator/CodeParsing/Analyzers/DotnetProjectAnalyzer.cs:173-189 | every type info carries the declaration's identifier, kind and attributes, and its variant matches the declaration kind |
| AnalyzerFacts.AbsentSyntaxDefaults | Core/DocumentationGenerator/CodeParsing/Analyzers/DotnetProjectAnalyzer.cs:198 | a missing base list, enum value, default, parameter type or accessor list becomes an empty list or "" |
| AnalyzerFacts.AccessorBodies | Core/DocumentationGenerator/CodeParsing/Analyzers/DotnetProjectAnalyzer.cs:350-351 | a getter/setter body is that of the first accessor of its kind, or "" when there is none |
| AnalyzerFacts.FirstAccessorAt | Core/DocumentationGenerator/CodeParsing/Analyzers/DotnetProjectAnalyzer.cs:350-351 | `FirstOrDefault` finds the accessor at the first index of the asked kind |
| AnalyzerFacts.BodyChoice | Core/DocumentationGenerator/CodeParsing/Analyzers/DotnetProjectAnalyzer.cs:364 | a method's body is its block, else its expression body, else ""; a constructor without a block has body "" |
| AnalyzerFacts.EmptyDeclarationDefaults | Core/DocumentationGenerator/CodeParsing/Analyzers/DotnetProjectAnalyzer.cs:191-225 | a class with no members and no base list yields all-empty lists |
| AnalyzerFacts.MemberListsWithin | Core/DocumentationGenerator/CodeParsing/Analyzers/DotnetProjectAnalyzer.cs:402-408 | a member's attribute lists are among the descendant lists of its type |
| AnalyzerFacts.ParameterListsWithin | Core/DocumentationGenerator/CodeParsing/Analyzers/DotnetProjectAnalyzer.cs:391-400 | a parameter's attribute lists are among those of its parameter list |
| AnalyzerFacts.MemberAttributesLifted | Core/DocumentationGenerator/CodeParsing/Analyzers/DotnetProjectAnalyzer.cs:402-408 | `DescendantNodes` makes every attribute on a member also an attribute of the enclosing type |
| AnalyzerFacts.ParameterAttributesLifted | Core/DocumentationGenerator/CodeParsing/Analyzers/DotnetProjectAnalyzer.cs:391-408 | a parameter's attribute is also one of its member's and of its type's |
| AnalyzerFacts.AssemblyAttributesAlwaysEmpty | Core/DocumentationGenerator/CodeParsing/Analyzers/DotnetProjectAnalyzer.cs:130-137 | as written, the filter `al.Target.IsKind(SyntaxKind.AssemblyKeyword)` holds for no attribute list, so `GetAssemblyAttributes` is always empty |
| AnalyzerFacts.AssemblyVersionDropped | Core/DocumentationGenerator/CodeParsing/Analyzers/DotnetProjectAnalyzer.cs:134 | a file holding `[assembly: AssemblyVersion("1.0")]` gets no assembly attributes from the filter as written, but one from the intended filter |
| AnalyzerFacts.AssemblyAttributesExactly | Core/DocumentationGenerator/CodeParsing/Analyzers/DotnetProjectAnalyzer.cs:130-137 | with the intended filter (`IntendedAssemblyAttributes`), an attribute is an assembly attribute exactly when it is in some list whose target is `assembly` |
| AnalyzerFacts.NamespaceKeepsTypesOnly | Core/DocumentationGenerator/CodeParsing/Analyzers/DotnetProjectAnalyzer.cs:139-152 | a namespace's members are the parsed direct type declarations in order; nested namespaces contribute nothing |
| AnalyzerFacts.TopLevelRouting | Core/DocumentationGenerator/CodeParsing/Analyzers/DotnetProjectAnalyzer.cs:109-117 | adding top-level types appends each class, struct, interface and enum to its own list and changes nothing else |
| AnalyzerFacts.AddTypeRouting | Core/DocumentationGenerator/CodeParsing/Analyzers/DotnetProjectAnalyzer.cs:154-171 | adding one type appends its class, struct, interface or enum info to the matching list and leaves every other field as it was |
| AnalyzerFacts.TopLevelRecordDropped | Core/DocumentationGenerator/CodeParsing/Analyzers/DotnetProjectAnalyzer.cs:154-171 | a top-level record is not recorded anywhere in the file info |
| AnalyzerFacts.AnalyzedFileShape | Core/DocumentationGenerator/CodeParsing/Analyzers/DotnetProjectAnalyzer.cs:64-120 | path, raw content and usings are copied; assembly attributes are empty; namespaces are the block ones plus the first file-scoped one; top-level lists are routed by kind |
| AnalyzerFacts.NoSolutionGate | Core/DocumentationGenerator/CodeParsing/Analyzers/DotnetProjectAnalyzer.cs:29-34 | without a `.sln` in the root the result is "Solution file not found" (`record.not.found`) whatever the files hold |
| AnalyzerFacts.KeptIff | Core/DocumentationGenerator/CodeParsing/Analyzers/DotnetProjectAnalyzer.cs:56-62 | a file is kept exactly when it ends in `.cs` and has no `/d/` segment for any of the five excluded directories |
| AnalyzerFacts.CSharpFilesExactly | Core/DocumentationGenerator/CodeParsing/Analyzers/DotnetProjectAnalyzer.cs:56-62 | the C# file list holds exactly the listed files that are kept |
| AnalyzerFacts.ExcludedRootHidesEverything | Core/DocumentationGenerator/CodeParsing/Analyzers/DotnetProjectAnalyzer.cs:58 | under a root that itself contains an excluded segment no file is kept |
| AnalyzerFacts.AllReadableSucceeds | Core/DocumentationGenerator/CodeParsing/Analyzers/DotnetProjectAnalyzer.cs:37-51 | the file loop succeeds exactly when every file reads, and then yields one file info per file in order, each the per-file analysis of that file's text |
| AnalyzerFacts.AnalyzeErrorNamesFile | Core/DocumentationGenerator/CodeParsing/Analyzers/DotnetProjectAnalyzer.cs:49 | the read error is a `file.analyze` failure whose message names the file |
| AnalyzerFacts.FirstUnreadableAborts | Core/DocumentationGenerator/CodeParsing/Analyzers/DotnetProjectAnalyzer.cs:37-51 | the first unreadable file ends the run with its own error, discarding the files already analysed |
| Prompts.AppendFileHeader | Core/DocumentationGenerator/Documentation/PromptGenerator.cs:42-47 | appends the file name line, the location line and a blank line |
| Prompts.AppendUsings | Core/DocumentationGenerator/Documentation/PromptGenerator.cs:49-57 | appends the usings section (see `PromptFacts.UsingsSection`) |
| Prompts.AppendAttributeItems | Core/DocumentationGenerator/Documentation/PromptGenerator.cs:64-69 | the attribute loop appends each attribute's item lines in order |
| Prompts.AppendAssemblyAttributes | Core/DocumentationGenerator/Documentation/PromptGenerator.cs:59-71 | appends the assembly attribute section (see `PromptFacts.AssemblySection`) |
| Prompts.AppendAttributes | Core/DocumentationGenerator/Documentation/PromptGenerator.cs:174-187 | appends the "Attributes:" section when there are attributes |
| Prompts.AppendModifiers | Core/DocumentationGenerator/Documentation/PromptGenerator.cs:166-172 | appends "Modifiers: " with the modifiers joined by spaces when there are any |
| Prompts.AppendBaseTypes | Core/DocumentationGenerator/Documentation/PromptGenerator.cs:189-195 | appends the caption and the comma-joined base types when there are any |
| Prompts.AppendFields | Core/DocumentationGenerator/Documentation/PromptGenerator.cs:197-211 | the field loop appends the fields section |
| Prompts.AppendField | Core/DocumentationGenerator/Documentation/PromptGenerator.cs:205-209 | one field appends its type-and-name line, then its initializer line when the initializer is not empty |
| Prompts.AppendFieldAt | Core/DocumentationGenerator/Documentation/PromptGenerator.cs:203-210 | one pass of the field loop extends the section by that field's lines |
| Prompts.AppendProperties | Core/DocumentationGenerator/Documentation/PromptGenerator.cs:213-223 | the property loop appends the properties section |
| Prompts.AppendConstructorParameters | Core/DocumentationGenerator/Documentation/PromptGenerator.cs:237-244 | the parameter loop appends each parameter line and its default line (see `PromptFacts.ConstructorParamShape`) |
| Prompts.AppendConstructor | Core/DocumentationGenerator/Documentation/PromptGenerator.cs:233-245 | appends one constructor's signature and parameter lines |
| Prompts.AppendConstructorAt | Core/DocumentationGenerator/Documentation/PromptGenerator.cs:231-246 | one pass of the constructor loop extends the section by that constructor's lines |
| Prompts.AppendConstructors | Core/DocumentationGenerator/Documentation/PromptGenerator.cs:225-247 | the constructor loop appends the constructors section |
| Prompts.AppendMethodParameters | Core/DocumentationGenerator/Documentation/PromptGenerator.cs:258-265 | the parameter loop appends one line per parameter, defaults not shown |
| Prompts.AppendMethod | Core/DocumentationGenerator/Documentation/PromptGenerator.cs:257-268 | appends one method's signature, parameters and body (see `PromptFacts.MethodEndsWithBody`) |
| Prompts.AppendMethods | Core/DocumentationGenerator/Documentation/PromptGenerator.cs:249-270 | the method loop appends the methods section |
| Prompts.AppendMethodAt | Core/DocumentationGenerator/Documentation/PromptGenerator.cs:255-269 | one pass of the method loop extends the section by that method's lines |
| Prompts.AppendEvents | Core/DocumentationGenerator/Documentation/PromptGenerator.cs:272-282 | the event loop appends the events section |
| Prompts.AppendClassSections | Core/DocumentationGenerator/Documentation/PromptGenerator.cs:104-112 | a class appends fields, properties, constructors, methods and events, in that order |
| Prompts.AppendRecordSections | Core/DocumentationGenerator/Documentation/PromptGenerator.cs:114-121 | a record appends fields, properties, constructors and methods, in that order |
| Prompts.AppendStructSections | Core/DocumentationGenerator/Documentation/PromptGenerator.cs:123-127 | a struct appends fields and methods |
| Prompts.PrepareTypeInfo | Core/DocumentationGenerator/Documentation/PromptGenerator.cs:95-131 | the type block: header, attributes, modifiers, base types, then the kind's sections |
| Prompts.PrepareInterfaceInfo | Core/DocumentationGenerator/Documentation/PromptGenerator.cs:133-146 | the interface block: header, modifiers, attributes, implemented interfaces, then methods before properties |
| Prompts.PrepareEnumInfo | Core/DocumentationGenerator/Documentation/PromptGenerator.cs:148-164 | the enum block: header, modifiers, attributes and the always-present members list |
| Prompts.AppendEnumMembers | Core/DocumentationGenerator/Documentation/PromptGenerator.cs:156-161 | appends a blank line, "Members:" and one "- name = value" line per member, even when there are none |
| Prompts.PrepareMember | Core/DocumentationGenerator/Documentation/PromptGenerator.cs:81-89 | each kind goes to its own renderer; a bare base type renders as "" |
| Prompts.AppendNamespace | Core/DocumentationGenerator/Documentation/PromptGenerator.cs:77-91 | appends the namespace line and one rendered line per member |
| Prompts.AppendTextLine | Core/DocumentationGenerator/Documentation/PromptGenerator.cs:81-90 | one pass of the member loop extends the namespace block by the member's text as one line |
| Prompts.AppendNamespaces | Core/DocumentationGenerator/Documentation/PromptGenerator.cs:73-93 | the namespace loop appends every namespace in order |
| Prompts.PreparePrompt | Core/DocumentationGenerator/Documentation/PromptGenerator.cs:20-40 | the prompt is always produced and equals the rendered prompt lines |
| PromptFacts.PromptBeginsWithHeader | Core/DocumentationGenerator/Documentation/PromptGenerator.cs:42-47 | every prompt starts with "File: <name>", "Location: <path>" and a blank line |
| PromptFacts.SectionOrder | Core/DocumentationGenerator/Documentation/PromptGenerator.cs:24-31 | the prompt is header, usings, assembly attributes, namespaces, concatenated in that order |
| PromptFacts.TopLevelTypesNotRendered | Core/DocumentationGenerator/Documentation/PromptGenerator.cs:20-40 | the top-level class, struct, enum and interface lists never affect the prompt |
| PromptFacts.UsingsSection | Core/DocumentationGenerator/Documentation/PromptGenerator.cs:49-57 | the section is absent exactly when there are no usings; otherwise a heading, one "- " line per using in order, and a blank line |
| PromptFacts.AssemblySection | Core/DocumentationGenerator/Documentation/PromptGenerator.cs:59-71 | absent exactly when there are no assembly attributes; otherwise a heading, the items and a blank line |
| PromptFacts.NoAssemblySection | Core/DocumentationGenerator/Documentation/PromptGenerator.cs:24-31 | without assembly attributes the namespaces follow the usings directly |
| PromptFacts.AnalyzedPromptWithoutAssembly | Core/DocumentationGenerator/Documentation/PromptGenerator.cs:59-71 | the prompt of a file the extractor analysed never has an "Assembly attributes:" section |
| PromptFacts.ArgumentsLineIff | Core/DocumentationGenerator/Documentation/PromptGenerator.cs:64-68 | an attribute has an "Arguments:" line exactly when it has arguments, joined by ", " |
| PromptFacts.NamespaceShape | Core/DocumentationGenerator/Documentation/PromptGenerator.cs:77-91 | a namespace renders its name line, then exactly one line per member, holding that member's text |
| PromptFacts.BareMemberRendersEmpty | Core/DocumentationGenerator/Documentation/PromptGenerator.cs:81-90 | a member of a kind the switch does not know renders as "", so it adds only an empty line |
| PromptFacts.EmptySectionsOmitted | Core/DocumentationGenerator/Documentation/PromptGenerator.cs:197-282 | each class section is absent exactly when its list is empty, and otherwise starts with a blank line and its heading |
| PromptFacts.BareClass | Core/DocumentationGenerator/Documentation/PromptGenerator.cs:95-131 | a class with nothing but a name renders as the single line "Class: <name>" |
| PromptFacts.AttributesBeforeModifiers | Core/DocumentationGenerator/Documentation/PromptGenerator.cs:99-105 | for classes, records and structs the attributes come before the modifiers |
| PromptFacts.ModifiersBeforeAttributes | Core/DocumentationGenerator/Documentation/PromptGenerator.cs:137-154 | for interfaces and enums the modifiers come before the attributes |
| PromptFacts.EnumAlwaysHasMembersHeading | Core/DocumentationGenerator/Documentation/PromptGenerator.cs:148-164 | every enum renders the "Members:" heading and one "- name = value" line per member, even with no members |
| PromptFacts.MethodEndsWithBody | Core/DocumentationGenerator/Documentation/PromptGenerator.cs:257-268 | a method renders its signature, its parameter list when non-empty, and ends with "  Body:" and the body |
| PromptFacts.WithDefaults | Core/DocumentationGenerator/Documentation/PromptGenerator.cs:258-265 | replacing the default values of parameters keeps their number |
| PromptFacts.MethodIgnoresDefaults | Core/DocumentationGenerator/Documentation/PromptGenerator.cs:258-265 | a method's lines do not depend on its parameters' default values |
| PromptFacts.ConstructorParamLineCount | Core/DocumentationGenerator/Documentation/PromptGenerator.cs:237-244 | a constructor's parameter lines number one per parameter plus one per parameter with a default |
| PromptFacts.ConstructorDefaultsShown | Core/DocumentationGenerator/Documentation/PromptGenerator.cs:233-245 | a constructor renders "- Type(signature)" and then, when it has parameters, a heading and the parameter lines |
| PromptFacts.ConstructorParamShape | Core/DocumentationGenerator/Documentation/PromptGenerator.cs:239-243 | a parameter line is "  - type name", followed by a "    Default:" line exactly when the default is non-empty |
| DocTemplate.TemplateContainsMarker | Core/DocumentationGenerator/DocumentationTemplates/DotnetDocumentationTemplate.cs:12-14 | the template's first paragraph, and so the template, contains "# File Overview" |
| DocTemplate.NumberedSectionsInOrder | Core/DocumentationGenerator/DocumentationTemplates/DotnetDocumentationTemplate.cs:16-40 | the five numbered sections appear in order, each after a blank line |
| DocTemplate.TemplateEnding | Core/DocumentationGenerator/DocumentationTemplates/DotnetDocumentationTemplate.cs:42-44 | the template text ends with "Now analyzing the following code:", the rule line and a blank line, each followed by a newline |
| DocTemplate.TemplateClosingLines | Core/DocumentationGenerator/DocumentationTemplates/DotnetDocumentationTemplate.cs:42-44 | the last three template lines are the analysis instruction, the rule and a blank line |
| DocTemplate.RuleShape | Core/DocumentationGenerator/DocumentationTemplates/DotnetDocumentationTemplate.cs:43 | the rule line is 34 '=' characters |
| DocsGeneration.TemplateError | Core/DocumentationGenerator/Documentation/LlamaDocsGenerator.cs:89 | the template error is the `send.docs.template` failure |
| DocsGeneration.GenerationError | Core/DocumentationGenerator/Documentation/LlamaDocsGenerator.cs:108 | the generation error is the `generation.documentation` failure |
| DocsGeneration.SendDocumentationTemplate | Core/DocumentationGenerator/Documentation/LlamaDocsGenerator.cs:76-91 | sending the template succeeds exactly when the reply streams, and otherwise fails with the template error |
| DocsGeneration.GenerateFileDocumentation | Core/DocumentationGenerator/Documentation/LlamaDocsGenerator.cs:93-110 | the token loop returns the concatenation of the streamed tokens, or the generation error |
| DocsGeneration.GenerateDocumentation | Core/DocumentationGenerator/Documentation/LlamaDocsGenerator.cs:31-62 | the file loop (with its two `continue`s) returns the documents and the chat transcript that `DocumentationOf` specifies |
| GenerationFacts.PromptsOf | Core/DocumentationGenerator/Documentation/LlamaDocsGenerator.cs:45-50 | at most one prompt is sent per file |
| GenerationFacts.RunSends | Core/DocumentationGenerator/Documentation/LlamaDocsGenerator.cs:41-59 | the loop sends exactly the prepared prompts in order, keeps earlier documents, and adds at most one document per file |
| GenerationFacts.RunKeepsAll | Core/DocumentationGenerator/Documentation/LlamaDocsGenerator.cs:41-59 | every file yields a document exactly when every prompt is prepared and every reply streams |
| GenerationFacts.RunPreservesOrder | Core/DocumentationGenerator/Documentation/LlamaDocsGenerator.cs:41-59 | for a chat whose replies do not depend on history, the documents are those of the successful files in file order |
| GenerationFacts.StepDocuments | Core/DocumentationGenerator/Documentation/LlamaDocsGenerator.cs:45-57 | one file adds its document to the end of the list when its prompt and reply succeed, and nothing otherwise |
| GenerationFacts.TemplateSentFirst | Core/DocumentationGenerator/Documentation/LlamaDocsGenerator.cs:34-43 | the template is the first message, followed by the prompts only when it was accepted |
| GenerationFacts.OnlyTemplateFailureSurfaces | Core/DocumentationGenerator/Documentation/LlamaDocsGenerator.cs:34-61 | generation fails exactly when the template reply breaks; per-file failures are skipped |
| GenerationFacts.DocumentsPerFile | Core/DocumentationGenerator/Documentation/LlamaDocsGenerator.cs:41-61 | there are at most as many documents as files, and as many exactly when every file succeeds |
| GenerationFacts.RendererNeverSkips | Core/DocumentationGenerator/Documentation/LlamaDocsGenerator.cs:47-50 | with the prompt generator as preparer, one prompt per file is sent, each the file's rendered prompt |
| ObjectStore.UploadError | Core/Infrastructure/MinioProvider.cs:47-52 | the upload error is the `file.upload.minio` failure |
| ObjectStore.RemoveError | Core/Infrastructure/MinioProvider.cs:77-82 | the remove error is the `remove.bucket` failure |
| ObjectStore.MinioProvider.constructor | Core/Infrastructure/MinioProvider.cs:16-22 | a provider starts over the given buckets with no calls made |
| ObjectStore.MinioProvider.Invoke | Core/Infrastructure/MinioProvider.cs:85-108 | a client call is logged, and takes effect unless its fault oracle makes it throw |
| ObjectStore.MinioProvider.IsBucketExists | Core/Infrastructure/MinioProvider.cs:85-91 | reports whether the bucket existed, unless the call throws |
| ObjectStore.MinioProvider.UploadFile | Core/Infrastructure/MinioProvider.cs:24-53 | result and new state are those of `UploadOf`: exists check, create if absent, put, or the upload error at the first throwing call |
| ObjectStore.MinioProvider.RemoveBucketIfExists | Core/Infrastructure/MinioProvider.cs:55-83 | result and new state are those of `RemoveOf`: exists check, remove objects when there are names, remove bucket, or the remove error |
| ObjectStore.UploadTouchesOnlyItsBucket | Core/Infrastructure/MinioProvider.cs:24-53 | an upload leaves every other bucket unchanged, only appends calls, and fails only with the upload error |
| ObjectStore.UploadSucceeds | Core/Infrastructure/MinioProvider.cs:30-45 | a successful upload returns the object name, issues exists/(make)/put in that order, and stores the content under the name in the bucket |
| ObjectStore.UploadKeepsNames | Core/Infrastructure/MinioProvider.cs:30-45 | an upload into an existing bucket keeps the bucket and every name in it, whether it succeeds or fails part-way |
| ObjectStore.UploadFailsIffSomeCallThrows | Core/Infrastructure/MinioProvider.cs:24-53 | the upload succeeds exactly when none of the calls it makes throws |
| ObjectStore.RemoveAbsentIsNoop | Core/Infrastructure/MinioProvider.cs:62-65 | removing an absent bucket only checks existence and succeeds |
| ObjectStore.RemovePresent | Core/Infrastructure/MinioProvider.cs:55-83 | removal touches no other bucket, fails only with the remove error, leaves the bucket absent on success, and removes objects only when there are names |
| MetadataStore.AddError | Core/Infrastructure/MongoDataAccess/FilesRepository.cs:36 | the insert error is the `files.upload.mongo` failure |
| MetadataStore.DeleteError | Core/Infrastructure/MongoDataAccess/FilesRepository.cs:52 | the delete error is the `delete.files.mongo` failure |
| MetadataStore.GetError | Core/Infrastructure/MongoDataAccess/FilesRepository.cs:68 | the query error is the `get.files.mongo` failure |
| MetadataStore.NamesQueryOf | Core/Infrastructure/MongoDataAccess/FilesRepository.cs:56-70 | the query fails exactly when the find throws; otherwise a name is listed exactly when some row of the bucket has that file path |
| MetadataStore.FilesRepository.constructor | Core/Infrastructure/MongoDataAccess/FilesRepository.cs:16-22 | a repository starts over the given rows |
| MetadataStore.FilesRepository.AddRange | Core/Infrastructure/MongoDataAccess/FilesRepository.cs:24-38 | the rows are appended, or left unchanged with the insert error |
| MetadataStore.FilesRepository.DeleteByBucket | Core/Infrastructure/MongoDataAccess/FilesRepository.cs:40-54 | the bucket's rows are removed, or all rows kept with the delete error |
| MetadataStore.FilesRepository.GetFileNamesByBucket | Core/Infrastructure/MongoDataAccess/FilesRepository.cs:56-70 | the file paths of the bucket's rows in stored order, or the query error |
| MetadataStore.DeleteRemovesExactly | Core/Infrastructure/MongoDataAccess/FilesRepository.cs:44 | a row survives the delete exactly when it belongs to another bucket |
| MetadataStore.BucketAfterDelete | Core/Infrastructure/MongoDataAccess/FilesRepository.cs:44 | after the delete the bucket holds no rows and every other bucket holds the rows it held |
| MetadataStore.DeleteThenNames | Core/Infrastructure/MongoDataAccess/FilesRepository.cs:40-70 | after deleting a bucket its name query is empty and other buckets' queries are unchanged |
| MetadataStore.NamesOfAppend | Core/Infrastructure/MongoDataAccess/FilesRepository.cs:24-70 | appended rows add their names after the existing ones |
| Sync.FilesProcessor.constructor | Core/DocumentationGenerator/FilesProcessor.cs:13-19 | the processor holds the given provider and repository |
| Sync.FilesProcessor.UploadFiles | Core/DocumentationGenerator/FilesProcessor.cs:21-82 | result and new store contents are those of `SyncOf`: names, remove, delete, then per entry upload and insert, stopping at the first error |
| Sync.FilesProcessor.UploadEntry | Core/DocumentationGenerator/FilesProcessor.cs:45-78 | one pass of the loop: on failure the result and stores are where the whole loop ends; on success the rest of the loop from the next entry ends the same way |
| SyncFacts.TrimMarkerIsTemplateMarker | Core/DocumentationGenerator/FilesProcessor.cs:50 | the marker the processor trims to is the heading the template asks for |
| SyncFacts.TrimFacts | Core/DocumentationGenerator/FilesProcessor.cs:50-52 | without the marker the document is kept; with it the document is cut at the first occurrence of the marker; trimming is idempotent |
| SyncFacts.ReplacedHead | Core/DocumentationGenerator/FilesProcessor.cs:45 | `Replace(".cs", ".md")` keeps the length and the first character, and turns a leading ".cs" into ".md" |
| SyncFacts.NoSourceExtensionLeft | Core/DocumentationGenerator/FilesProcessor.cs:45 | after the replacement no ".cs" occurrence remains |
| SyncFacts.ArtifactNameShape | Core/DocumentationGenerator/FilesProcessor.cs:45 | the artefact name has the file name's length and no ".cs" in it |
| SyncFacts.SyncStopsEarly | Core/DocumentationGenerator/FilesProcessor.cs:28-41 | a failing name query changes nothing; a failing removal or delete returns its own error and goes no further |
| SyncFacts.RowsFor | Core/DocumentationGenerator/FilesProcessor.cs:65-73 | one metadata row per uploaded entry |
| SyncFacts.UploadAllUnfold | Core/DocumentationGenerator/FilesProcessor.cs:43-79 | one pass of the loop: upload, then insert one row, returning the first error |
| SyncFacts.UploadAllStep | Core/DocumentationGenerator/FilesProcessor.cs:43-79 | a pass either goes on with exactly one more row, or fails leaving the rows as they were |
| SyncFacts.RowsForCons | Core/DocumentationGenerator/FilesProcessor.cs:65-75 | the rows of a run are the first entry's row followed by the rest |
| SyncFacts.UploadAllProgress | Core/DocumentationGenerator/FilesProcessor.cs:43-79 | the loop records the rows of a prefix of the entries, in order; it passes exactly when that prefix is all of them |
| SyncFacts.UploadAllKeepsObjects | Core/DocumentationGenerator/FilesProcessor.cs:43-79 | the loop never takes an object away: the bucket keeps every name it held, and each entry that completes (one row each) leaves its object in the bucket |
| SyncFacts.UploadAllNoRollback | Core/DocumentationGenerator/FilesProcessor.cs:43-79 | nothing is rolled back when an entry fails: the completed prefix's rows stay in order, the bucket keeps all its names, and every completed entry's object stays; it passes iff the prefix is every entry |
| SyncFacts.UploadAllErrors | Core/DocumentationGenerator/FilesProcessor.cs:60-78 | the loop can fail only with the upload error or the insert error |
| SyncFacts.UploadAllOthers | Core/DocumentationGenerator/FilesProcessor.cs:43-79 | the loop changes no other bucket's objects or names |
| SyncFacts.SyncTouchesOnlyBucket | Core/DocumentationGenerator/FilesProcessor.cs:21-82 | a sync changes only the project's bucket, in both stores |
| SyncFacts.RowsStep | Core/DocumentationGenerator/FilesProcessor.cs:65-75 | each inserted row adds the entry's artefact name to the bucket's names |
| SyncFacts.ObjectsStep | Core/DocumentationGenerator/FilesProcessor.cs:58-63 | each successful upload adds the entry's artefact name to the bucket's objects |
| SyncFacts.UploadAllComplete | Core/DocumentationGenerator/FilesProcessor.cs:43-79 | a loop that passes leaves one name per entry in order; the bucket's objects are exactly those names; each object holds the trimmed document of the last entry with that name (`HoldsLatest`) |
| SyncFacts.ContentsStep | Core/DocumentationGenerator/FilesProcessor.cs:50-63 | a successful upload stores the entry's trimmed document under its artefact name and keeps every other object's content |
| SyncFacts.SyncFullSuccess | Core/DocumentationGenerator/FilesProcessor.cs:21-82 | after a successful sync the bucket's names are the entries' artefact names in order; its objects are exactly those names; each object is the trimmed document (`Trim`: from the first "# File Overview" on) of the last entry with that name (`HoldsLatest`) |
| Pipeline.Process | Core/DocumentationGenerator/Processor.cs:20-30 | an analysis error is returned unchanged and no generation happens; otherwise the generator gets the analysis and the result is "" |
| Pipeline.GeneratorOutcomeIgnored | Core/DocumentationGenerator/Processor.cs:27-29 | the generator's outcome cannot change what `Process` returns |
| Pipeline.ProcessOverAnalyzer | Core/DocumentationGenerator/Processor.cs:20-30 | with the modelled analyser, for any per-file analysis: a missing solution or unreadable file is the result, otherwise "" after one generation request |

## Left out

- `Analyzer.AttributesOf`: undercounts the attribute lists that `DescendantNodes()` finds. Method, accessor and constructor bodies, expression bodies, field initializers and parameter defaults are kept as text, and type parameter lists are not modelled. So the model does not see attribute lists in those positions: an attributed local function or lambda in a body or an initializer (`[Conditional("DEBUG")] void Log() {}`), or an attributed type parameter (`class Box<[Foo] T>`).
- Store faults are a fixed function of the call (`ObjectStore.Faults`, `MetadataStore.Faults`). Two identical calls either both throw or both succeed, so a transient fault cannot be represented. For example, once `RemoveBucketIfExists`'s `BucketExists(b)` succeeds, the upload's `BucketExists(b)` cannot throw. No lemma depends on this.

- Roslyn parsing is not modelled. The syntax tree is an input datatype, and `CSharpSyntaxTree.ParseText` is a `parse` function passed in.
- File reading and directory enumeration are not modelled. `File.ReadAllText` is a `read` function whose failure is a value. The directory listing is a `ProjectDirectory` value with the root's files and every file below it, in enumeration order.
- Paths use the single separator '/'. Platform rules (drive letters, '\\', trailing separators) are not modelled. `Paths.DirectoryName` cuts at the last separator: it gives "" for "/Foo.cs", where .NET gives "/", and it keeps doubled separators, which .NET collapses. Nothing reads `FolderPath`, so this is not observable.
- Every `AppendLine` writes "\n" (`TextBuilder.StringBuilder.AppendLine`, `Text.Render`), not the platform's `Environment.NewLine`. On a platform whose newline is "\r\n", prompts and the template text differ by one character per line. `FileSize` counts the UTF-8 bytes of the trimmed document that `WriteAsync` writes, which adds no newline of its own. So the choice of newline reaches `FileSize` only through the lines of the generated document.
- The chat client and its network streaming are modelled as a function from (history, message) to a reply. The reply is either a stream of tokens or a stream that breaks. The model name `llama3` and `InitClient` are configuration and are not modelled.
- The template send reads its token stream only to drain it. It is modelled as a check of the reply's kind, not as a loop.
- The MinIO and MongoDB clients are not modelled. They are replaced by in-memory state, and a fault oracle per client call stands for exceptions. MinIO's rule that a bucket must be empty before removal is not checked: a successful `RemoveBucket` removes the bucket and its objects.
- `MetadataStore.FilesRepository.AddRange` makes `InsertMany` all or nothing; a partial insert before an exception is not modelled.
- `Sync.FilesProcessor.UploadFiles` models the `MemoryStream` by the text written to it. `FileSize` is the UTF-8 byte length, since `StreamWriter` defaults to UTF-8 without a byte order mark.
- `Guid.NewGuid` and `DateTime.UtcNow` are functions of the entry index passed in. Identifier uniqueness and clock monotonicity are not modelled.
- The dictionary of documents is a sequence of entries in its enumeration order. Key uniqueness is not assumed.
- async/await, cancellation tokens, logging, dependency injection and the console application are not modelled. `Generator.cs` and the interface files are wiring only and are not part of this model.
- `GenerationFacts.RunPreservesOrder` states document order only for a chat whose replies do not depend on history. A real chat session sees its history, so for it the lemma says nothing.

## Findings

| source | as written | input that shows it | evidently intended | confidence | as-written member | corrected member |
|---|---|---|---|---|---|---|
| Core/DocumentationGenerator/CodeParsing/Analyzers/DotnetProjectAnalyzer.cs:134 | `al.Target.IsKind(SyntaxKind.AssemblyKeyword)` tests the kind of the target specifier node (`AttributeTargetSpecifier`), never `AssemblyKeyword`. So no list passes, and `FileInfo.AssemblyAttributes` is always empty (`AnalyzerFacts.AssemblyAttributesAlwaysEmpty`, `PromptFacts.AnalyzedPromptWithoutAssembly`) | a file holding `[assembly: AssemblyVersion("1.0")]` | test the keyword token, `al.Target?.Identifier.IsKind(SyntaxKind.AssemblyKeyword)`, keeping exactly the lists whose target is `assembly` (`AnalyzerFacts.AssemblyAttributesExactly`) | high; not executed | AnalyzerFacts.AssemblyVersionDropped | Analyzer.IntendedAssemblyAttributes |

The extractor model (`Analyzer.AnalyzeFile`) keeps the code's behaviour, an
empty assembly-attribute list. The prompt renderer and its lemmas
(`PromptFacts.AssemblySection`, `PromptFacts.SectionOrder`) hold for any
`FileInfo`. So they also describe a file whose assembly attributes come from
the intended filter.
