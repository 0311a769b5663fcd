/** `System.Text.StringBuilder`, reduced to the two calls the prompt
    renderer makes. `AppendLine` ends the line with "\n". */
module TextBuilder {
  import Text

  class StringBuilder {
    var text: string

    constructor ()
      ensures text == ""
    {
      text := "";
    }

    method Append(s: string)
      modifies this
      ensures text == old(text) + s
    {
      text := text + s;
    }

    method AppendLine(s: string)
      modifies this
      ensures text == old(text) + Text.Render([s])
    {
      text := text + s + "\n";
    }
  }
}
