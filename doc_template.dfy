/** The fixed instructions sent to the chat model before any file prompt
    (DotnetDocumentationTemplate). */
module DocTemplate {
  import Text

  /** The marker the answer is asked to start with; the artifact
      synchroniser trims every generated document at its first occurrence. */
  const Marker := "# File Overview"

  /** The first instruction line, which ends by asking for `Marker`. */
  const Intro := "You need to generate documentation for several C# files in .md format. "
    + "Follow the template exactly and don't add anything extra. "
    + "Don`t forgive to add description for each method."
    + "If you can`t fill some points, just skip it. I want your answer to start with \""
    + Marker + "\":"

  /** The rule line under the closing instruction: 34 `=` characters. */
  const Rule := "=================================="

  /** One entry per `AppendLine` call; `""` is a bare `AppendLine()`. */
  const TemplateLines: seq<string> := [
    Intro,
    "",
    "1. File Overview",
    "   - File Name: [filename]",
    "   - Location: [path]",
    "   - Purpose: [brief description of file's purpose]",
    "",
    "2. Dependencies",
    "   - Namespaces: [list of used namespaces]",
    "   - Assembly Attributes: [if any]",
    "",
    "3. Code Structure",
    "   For each class/struct/interface/enum/record:",
    "   - Name: [name]",
    "   - Type: [class/struct/interface/enum/record]",
    "   - Modifiers: [public/private/etc]",
    "   - Inheritance: [base types/interfaces]",
    "   - Description: [detailed description of purpose and functionality]",
    "",
    "4. Members",
    "   - Fields: [name, type, description]",
    "   - Properties: [name, type, get/set accessors, description]",
    "   - Methods: [name, parameters, return type, description]",
    "   - Events: [name, type, description]",
    "",
    "5. Usage Examples",
    "   - Please provide typical usage scenarios, code examples if applicable",
    "",
    "Now analyzing the following code:",
    Rule,
    ""
  ]

  /** `GetTemplate`: the rendered template. It takes no input, so every call
      yields the same text. */
  function GetTemplate(): string
  {
    Text.Render(TemplateLines)
  }

  /** The template asks for an answer that starts with the marker, so the
      marker occurs in the template text itself. */
  lemma TemplateContainsMarker()
    ensures Text.Contains(Intro, Marker)
    ensures Text.Contains(GetTemplate(), Marker)
  {
    var before := "You need to generate documentation for several C# files in .md format. "
      + "Follow the template exactly and don't add anything extra. "
      + "Don`t forgive to add description for each method."
      + "If you can`t fill some points, just skip it. I want your answer to start with \"";
    Text.ContainsSpliced(before, Marker, "\":");
    assert GetTemplate() == Intro + "\n" + Text.Render(TemplateLines[1..]);
    assert GetTemplate()[..|Intro|] == Intro;
    Text.ContainsThroughPrefix(GetTemplate(), Intro, Marker);
  }

  /** The five numbered sections appear in order, each after a blank line. */
  lemma NumberedSectionsInOrder()
    ensures |TemplateLines| == 31
    ensures TemplateLines[2] == "1. File Overview" && TemplateLines[1] == ""
    ensures TemplateLines[7] == "2. Dependencies" && TemplateLines[6] == ""
    ensures TemplateLines[11] == "3. Code Structure" && TemplateLines[10] == ""
    ensures TemplateLines[19] == "4. Members" && TemplateLines[18] == ""
    ensures TemplateLines[25] == "5. Usage Examples" && TemplateLines[24] == ""
  {
  }

  /** The template closes with the analysis instruction, the rule line and a
      blank line. */
  lemma TemplateClosingLines()
    ensures TemplateLines[28..] == ["Now analyzing the following code:", Rule, ""]
    ensures TemplateLines == TemplateLines[..28] + TemplateLines[28..]
  {
  }

  /** The rule line is 34 `=` characters. */
  lemma RuleShape()
    ensures |Rule| == 34 && forall i :: 0 <= i < |Rule| ==> Rule[i] == '='
  {
  }

  /** The template text therefore ends with its three closing lines. */
  lemma TemplateEnding()
    ensures Text.EndsWith(GetTemplate(), "Now analyzing the following code:\n" + Rule + "\n" + "\n")
  {
    var closing := TemplateLines[28..];
    TemplateClosingLines();
    Text.RenderEndsWith(TemplateLines[..28], closing);
    Text.RenderTwoThenBlank("Now analyzing the following code:", Rule);
    assert Text.Render(closing) == "Now analyzing the following code:\n" + Rule + "\n" + "\n";
  }
}
