/**
 * The interface of the `parameters` package as the provision command uses it.
 * The parsers' bodies are not part of this model: each one is an arbitrary
 * total function, handed to the command as a value.
 */
module Parameters {
  import opened Wrappers

  /**
   * What a Go function of shape `func(...) (T, error)` hands back: both results
   * at once. The caller may assign `value` even when `err` is set.
   */
  datatype Returned<+T> = Returned(value: T, err: Option<string>)

  /**
   * The three parsers of the `parameters` package. `P` stands for the decoded
   * parameter payload, whose structure the command never inspects.
   */
  datatype Parsers<P> = Parsers(
    variableJson: string -> Returned<P>,                          // ParseVariableJSON
    variableAssignments: seq<string> -> Returned<P>,              // ParseVariableAssignments
    keyMaps: seq<string> -> Returned<map<string, string>>)        // ParseKeyMaps
}
