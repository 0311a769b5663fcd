/** The shared error catalogue (Domain/Errors/Errors.cs). */
module Errors {
  import opened Wrappers
  import ErrorRecord
  import ErrorTypes
  import Text

  const RecordNotFoundCode := "record.not.found"

  /** `Errors.NotFound(id, name)`: `id` is the textual form of the optional
      identifier, `name` the optional name of what was looked for. */
  function NotFound(id: Option<string>, name: Option<string>): (e: ErrorRecord.Error)
    ensures e.code == RecordNotFoundCode && e.errorType == ErrorTypes.NotFound
    ensures e.invalidField == None
    ensures Text.StartsWith(e.message, if name.Some? then name.value else "value")
  {
    var forId := if id.None? then "" else " for Id '" + id.value;
    var shown := if name.None? then "value" else name.value;
    assert (shown + " not found" + forId)[..|shown|] == shown;
    ErrorRecord.NotFound(RecordNotFoundCode, shown + " not found" + forId)
  }

  /** Without an id the message is exactly `<name> not found`. */
  lemma NotFoundWithoutId(name: string)
    ensures NotFound(None, Some(name)).message == name + " not found"
    ensures NotFound(None, None).message == "value not found"
  {
  }

  /** With an id the message is exactly `<name> not found for Id '<id>`, with
      no closing quote, so it ends with the id itself. */
  lemma NotFoundWithId(id: string, name: Option<string>)
    ensures NotFound(Some(id), name).message
         == (if name.Some? then name.value else "value") + " not found for Id '" + id
    ensures var m := NotFound(Some(id), name).message;
      Text.EndsWith(m, " for Id '" + id) && Text.EndsWith(m, id)
  {
    var m := NotFound(Some(id), name).message;
    var shown := if name.None? then "value" else name.value;
    assert m == (shown + " not found") + (" for Id '" + id);
    assert m[|m| - |id|..] == id;
  }
}
