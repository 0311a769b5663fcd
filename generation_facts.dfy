/** Properties of the generation loop: what is sent to the session, which
    errors reach the caller, and which documents are kept. */
module GenerationFacts {
  import opened Wrappers
  import opened ProjectInfo
  import opened Seqs
  import opened DocsGeneration
  import DocTemplate
  import Prompts

  /** The prompts that are prepared successfully, in file order. */
  function PromptsOf(prepare: Preparer, files: seq<FileInfo>): (r: seq<string>)
    ensures |r| <= |files|
  {
    if files == [] then []
    else (if prepare(files[0]).Ok? then [prepare(files[0]).value] else []) + PromptsOf(prepare, files[1..])
  }

  /** Every file from `history` onwards gets its prompt prepared and
      answered in full. */
  predicate AllSucceed(prepare: Preparer, chat: Chat, history: seq<string>, files: seq<FileInfo>)
    decreases |files|
  {
    files == [] ||
      (prepare(files[0]).Ok? && chat(history, prepare(files[0]).value).Streamed?
       && AllSucceed(prepare, chat, history + [prepare(files[0]).value], files[1..]))
  }

  /** The loop sends exactly the successfully prepared prompts, in order, and
      only ever adds documents after those it already has. */
  lemma {:induction false} RunSends(prepare: Preparer, chat: Chat, s: Session, files: seq<FileInfo>)
    ensures Run(prepare, chat, s, files).sent == s.sent + PromptsOf(prepare, files)
    ensures |s.docs| <= |Run(prepare, chat, s, files).docs| <= |s.docs| + |files|
    ensures Run(prepare, chat, s, files).docs[..|s.docs|] == s.docs
    decreases |files|
  {
    if files != [] {
      var next := Step(prepare, chat, s, files[0]);
      RunSends(prepare, chat, next, files[1..]);
      var after := Run(prepare, chat, next, files[1..]).docs;
      assert next.docs[..|s.docs|] == s.docs;
      assert after[..|s.docs|] == after[..|next.docs|][..|s.docs|];
    }
  }

  /** One document per file exactly when every file succeeds. */
  lemma {:induction false} RunKeepsAll(prepare: Preparer, chat: Chat, s: Session, files: seq<FileInfo>)
    ensures |Run(prepare, chat, s, files).docs| == |s.docs| + |files|
        <==> AllSucceed(prepare, chat, s.sent, files)
    decreases |files|
  {
    if files != [] {
      var next := Step(prepare, chat, s, files[0]);
      RunKeepsAll(prepare, chat, next, files[1..]);
      RunSends(prepare, chat, next, files[1..]);
    }
  }

  /** The documents in file order, for a session whose answers do not depend
      on its history. */
  function Documents(prepare: Preparer, chat: Chat, files: seq<FileInfo>): seq<string>
  {
    if files == [] then [] else DocumentOf(prepare, chat, files[0]) + Documents(prepare, chat, files[1..])
  }

  /** The document of one file for a fresh session: none when its prompt or
      its answer fails. */
  function DocumentOf(prepare: Preparer, chat: Chat, f: FileInfo): seq<string>
  {
    match prepare(f)
    case Err(_) => []
    case Ok(prompt) =>
      match FileDocumentationOf(chat, [], prompt)
      case Ok(doc) => [doc]
      case Err(_) => []
  }

  /** With history-independent answers, the document list is the documents
      of the succeeding files in input order. */
  lemma {:induction false} RunPreservesOrder(prepare: Preparer, chat: Chat, s: Session, files: seq<FileInfo>)
    requires forall h, p :: chat(h, p) == chat([], p)
    ensures Run(prepare, chat, s, files).docs == s.docs + Documents(prepare, chat, files)
    decreases |files|
  {
    if files != [] {
      var next := Step(prepare, chat, s, files[0]);
      RunPreservesOrder(prepare, chat, next, files[1..]);
      StepDocuments(prepare, chat, s, files[0]);
      var head, rest := DocumentOf(prepare, chat, files[0]), Documents(prepare, chat, files[1..]);
      assert s.docs + head + rest == s.docs + (head + rest);
    }
  }

  /** One pass adds the file's document, if any, whatever the history. */
  lemma StepDocuments(prepare: Preparer, chat: Chat, s: Session, f: FileInfo)
    requires forall h, p :: chat(h, p) == chat([], p)
    ensures Step(prepare, chat, s, f).docs == s.docs + DocumentOf(prepare, chat, f)
  {
    if prepare(f).Ok? {
      assert chat(s.sent, prepare(f).value) == chat([], prepare(f).value);
    }
  }

  /** The template is the first message and is sent once; after it come the
      prepared prompts in file order, and nothing when the template fails. */
  lemma TemplateSentFirst(project: ProjectAnalysisResult, prepare: Preparer, chat: Chat)
    ensures var (r, transcript) := DocumentationOf(project, prepare, chat);
      transcript == [DocTemplate.GetTemplate()] + (if r.Err? then [] else PromptsOf(prepare, project.filesInfo))
  {
    RunSends(prepare, chat, Session([], [DocTemplate.GetTemplate()]), project.filesInfo);
  }

  /** Only a template failure reaches the caller; a failed prompt or answer
      just drops its file. */
  lemma OnlyTemplateFailureSurfaces(project: ProjectAnalysisResult, prepare: Preparer, chat: Chat)
    ensures var (r, _) := DocumentationOf(project, prepare, chat);
      && (r.Err? <==> chat([], DocTemplate.GetTemplate()).Broken?)
      && (r.Err? ==> r.error == TemplateError())
  {
  }

  /** At most one document per file, and exactly one per file iff no file
      failed. */
  lemma DocumentsPerFile(project: ProjectAnalysisResult, prepare: Preparer, chat: Chat)
    ensures var (r, _) := DocumentationOf(project, prepare, chat);
      r.Ok? ==>
        && |r.value| <= |project.filesInfo|
        && (|r.value| == |project.filesInfo| <==> AllSucceed(prepare, chat, [DocTemplate.GetTemplate()], project.filesInfo))
  {
    var s := Session([], [DocTemplate.GetTemplate()]);
    RunSends(prepare, chat, s, project.filesInfo);
    RunKeepsAll(prepare, chat, s, project.filesInfo);
  }

  /** The prompt generator never fails, so with it every file gets its
      prompt sent, in order. */
  lemma {:induction false} RendererNeverSkips(prepare: Preparer, files: seq<FileInfo>)
    requires forall f :: prepare(f) == Ok(Prompts.PromptText(f))
    ensures PromptsOf(prepare, files) == Map(Prompts.PromptText, files)
    decreases |files|
  {
    if files != [] {
      RendererNeverSkips(prepare, files[1..]);
      assert Map(Prompts.PromptText, files) == [Prompts.PromptText(files[0])] + Map(Prompts.PromptText, files[1..]);
    }
  }
}
