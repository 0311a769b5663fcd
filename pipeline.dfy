/** The top-level sequencing (Processor): analyse the project, then hand
    the analysis to the documentation generator. */
module Pipeline {
  import opened Wrappers
  import opened ErrorRecord
  import opened ProjectInfo
  import Analyzer
  import DocsGeneration

  type ProjectAnalyzer = string -> Result<ProjectAnalysisResult, Error>
  type DocumentationGenerator = ProjectAnalysisResult -> Result<seq<string>, Error>

  /** `Process`: the result, and the analyses the generator was called
      with. The generator's own result is not looked at, and nothing is
      synchronised to the stores. */
  function Process(analyze: ProjectAnalyzer, generate: DocumentationGenerator, projectPath: string)
    : (r: (Result<string, Error>, seq<ProjectAnalysisResult>))
    ensures analyze(projectPath).Err? ==> r.0 == Err(analyze(projectPath).error) && r.1 == []
    ensures analyze(projectPath).Ok? ==> r.0 == Ok("") && r.1 == [analyze(projectPath).value]
  {
    var analyzeResult := analyze(projectPath);
    if analyzeResult.Err? then (Err(analyzeResult.error), [])
    else
      var projectDocumentation := generate(analyzeResult.value);
      (Ok(""), [analyzeResult.value])
  }

  /** The generator cannot change what `Process` returns. */
  lemma GeneratorOutcomeIgnored(analyze: ProjectAnalyzer, g1: DocumentationGenerator, g2: DocumentationGenerator,
                                projectPath: string)
    ensures Process(analyze, g1, projectPath) == Process(analyze, g2, projectPath)
  {
  }

  /** With the project analyser and the chat-driven generator plugged in, a
      missing solution file reaches the caller as the not-found error and no
      documentation is generated; otherwise every analysis error is passed
      on unchanged. */
  lemma ProcessOverAnalyzer(dir: Analyzer.ProjectDirectory, read: string -> Analyzer.ReadResult,
                            info: (string, string) -> FileInfo, prepare: DocsGeneration.Preparer,
                            chat: DocsGeneration.Chat, projectPath: string)
    ensures var analyze := (p: string) => Analyzer.AnalysisOf(dir, read, info);
      var generate := (a: ProjectAnalysisResult) => DocsGeneration.DocumentationOf(a, prepare, chat).0;
      var (r, requests) := Process(analyze, generate, projectPath);
      && (!Analyzer.HasSolutionFile(dir.rootFiles) ==> r == Err(Analyzer.SolutionNotFound()) && requests == [])
      && (Analyzer.AnalysisOf(dir, read, info).Err? ==> r == Err(Analyzer.AnalysisOf(dir, read, info).error))
      && (Analyzer.AnalysisOf(dir, read, info).Ok? ==> r == Ok("") && requests == [Analyzer.AnalysisOf(dir, read, info).value])
  {
  }
}
