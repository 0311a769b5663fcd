/** The generation loop (LlamaDocsGenerator): send the template once, then
    one prompt per analysed file, keeping the documents of the files whose
    prompt and answer both succeed. The chat model is an oracle. */
module DocsGeneration {
  import opened Wrappers
  import opened ProjectInfo
  import opened ErrorRecord
  import Text
  import DocTemplate

  /** An answer stream: either every token arrived, or the stream broke
      after `received` tokens. */
  datatype Reply = Streamed(tokens: seq<string>) | Broken(received: seq<string>)

  /** The chat session: its answer to `message` given the messages already
      sent in the same session, oldest first. */
  type Chat = (seq<string>, string) -> Reply

  /** Turns a file model into its prompt (the prompt generator). */
  type Preparer = FileInfo -> Result<string, Error>

  function TemplateError(): (e: Error)
    ensures e.code == "send.docs.template" && e.errorType == ErrorTypes.Failure
  {
    Failure("send.docs.template", "Error while sending docs template")
  }

  function GenerationError(): (e: Error)
    ensures e.code == "generation.documentation" && e.errorType == ErrorTypes.Failure
  {
    Failure("generation.documentation", "Error while generation documentation")
  }

  /** `SendDocumentationTemplate`: the answer's tokens are discarded; only a
      broken stream matters. */
  function SendDocumentationTemplate(chat: Chat, history: seq<string>, template: string): (r: Outcome<Error>)
    ensures r.Pass? <==> chat(history, template).Streamed?
    ensures r.Fail? ==> r.error == TemplateError()
  {
    if chat(history, template).Streamed? then Pass else Fail(TemplateError())
  }

  /** What `GenerateFileDocumentation` yields for a prompt: the tokens
      joined with nothing between them, or the generation error. */
  function FileDocumentationOf(chat: Chat, history: seq<string>, prompt: string): Result<string, Error>
  {
    match chat(history, prompt)
    case Streamed(tokens) => Ok(Text.Concat(tokens))
    case Broken(_) => Err(GenerationError())
  }

  /** `GenerateFileDocumentation`: collects the streamed tokens in order and
      joins them with the empty separator. */
  method GenerateFileDocumentation(chat: Chat, history: seq<string>, prompt: string)
    returns (r: Result<string, Error>)
    ensures r == FileDocumentationOf(chat, history, prompt)
    ensures r.Ok? ==> chat(history, prompt).Streamed? && r.value == Text.Join("", chat(history, prompt).tokens)
  {
    var reply := chat(history, prompt);
    var stream := if reply.Streamed? then reply.tokens else reply.received;
    var response: seq<string> := [];
    for i := 0 to |stream|
      invariant response == stream[..i]
    {
      response := response + [stream[i]];
    }
    assert response == stream;
    if reply.Broken? {
      return Err(GenerationError());
    }
    Text.JoinEmptyIsConcat(response);
    r := Ok(Text.Join("", response));
  }

  /** The loop's state: the documents kept so far and every message sent to
      the session so far. */
  datatype Session = Session(docs: seq<string>, sent: seq<string>)

  /** One pass of the per-file loop. A failed prompt sends nothing; a failed
      answer still leaves its prompt in the session. */
  function Step(prepare: Preparer, chat: Chat, s: Session, f: FileInfo): Session
  {
    match prepare(f)
    case Err(_) => s
    case Ok(prompt) =>
      match FileDocumentationOf(chat, s.sent, prompt)
      case Ok(doc) => Session(s.docs + [doc], s.sent + [prompt])
      case Err(_) => Session(s.docs, s.sent + [prompt])
  }

  function Run(prepare: Preparer, chat: Chat, s: Session, files: seq<FileInfo>): Session
    decreases |files|
  {
    if files == [] then s else Run(prepare, chat, Step(prepare, chat, s, files[0]), files[1..])
  }

  /** The result of `GenerateDocumentation` and the messages it sent: on a
      broken template stream, the template error after the template alone. */
  function DocumentationOf(project: ProjectAnalysisResult, prepare: Preparer, chat: Chat)
    : (Result<seq<string>, Error>, seq<string>)
  {
    var template := DocTemplate.GetTemplate();
    if SendDocumentationTemplate(chat, [], template).Fail? then (Err(TemplateError()), [template])
    else
      var s := Run(prepare, chat, Session([], [template]), project.filesInfo);
      (Ok(s.docs), s.sent)
  }

  /** `GenerateDocumentation` over the flat list of analysed files; the
      second result is the session's message log. */
  method GenerateDocumentation(project: ProjectAnalysisResult, prepare: Preparer, chat: Chat)
    returns (r: Result<seq<string>, Error>, transcript: seq<string>)
    ensures (r, transcript) == DocumentationOf(project, prepare, chat)
  {
    var template := DocTemplate.GetTemplate();
    transcript := [template];
    var templateResult := SendDocumentationTemplate(chat, [], template);
    if templateResult.Fail? {
      return Err(templateResult.error), transcript;
    }
    var files := project.filesInfo;
    var documentationFiles: seq<string> := [];
    for i := 0 to |files|
      invariant Run(prepare, chat, Session(documentationFiles, transcript), files[i..])
             == Run(prepare, chat, Session([], [template]), files)
    {
      assert files[i..][1..] == files[i + 1..];
      var promptResult := prepare(files[i]);
      if promptResult.Err? {
        continue;
      }
      var documentation := GenerateFileDocumentation(chat, transcript, promptResult.value);
      transcript := transcript + [promptResult.value];
      if documentation.Err? {
        continue;
      }
      documentationFiles := documentationFiles + [documentation.value];
    }
    assert files[|files|..] == [];
    r := Ok(documentationFiles);
  }
}
