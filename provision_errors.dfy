/**
 * The errors that `ProvisionCmd.Validate` reports, and the exact text each
 * one carries (what `err.Error()` returns for the value built by `fmt.Errorf`).
 */
module ProvisionErrors {
  import opened Wrappers

  datatype ValidationError =
    | MissingInstanceName                  // no positional argument
    | ConflictingParamSources              // --params-json together with --param
    | InvalidJsonParams(cause: string)     // ParseVariableJSON failed
    | InvalidParams(cause: string)         // ParseVariableAssignments failed
    | InvalidSecrets(cause: string)        // ParseKeyMaps failed

  const MissingNameText := "an instance name is required"
  const ConflictText := "--params-json cannot be used with --param"
  const JsonPrefix := "invalid --params-json value ("
  const ParamPrefix := "invalid --param value ("
  const SecretPrefix := "invalid --secret value ("

  /** `fmt.Errorf("<prefix>(%s)", err)`: the parser's own message inside the context prefix. */
  function Wrap(prefix: string, cause: string): string {
    prefix + cause + ")"
  }

  /** The text of each error. */
  function Message(e: ValidationError): string {
    match e
    case MissingInstanceName => MissingNameText
    case ConflictingParamSources => ConflictText
    case InvalidJsonParams(cause) => Wrap(JsonPrefix, cause)
    case InvalidParams(cause) => Wrap(ParamPrefix, cause)
    case InvalidSecrets(cause) => Wrap(SecretPrefix, cause)
  }

  /** The cause inside a wrapped message, if `msg` has the shape `prefix + cause + ")"`. */
  function Unwrap(prefix: string, msg: string): (r: Option<string>)
    ensures r.Some? ==> msg == Wrap(prefix, r.value)
  {
    if |prefix| < |msg| && msg[..|prefix|] == prefix && msg[|msg| - 1] == ')' then
      var cause := msg[|prefix|..|msg| - 1];
      assert msg == msg[..|prefix|] + cause + [msg[|msg| - 1]];
      Some(cause)
    else
      None
  }

  /** Unwrapping a wrapped message gives back exactly the cause. */
  lemma UnwrapWrap(prefix: string, cause: string)
    ensures Unwrap(prefix, Wrap(prefix, cause)) == Some(cause)
  {
  }

  /**
   * Reads an error back from its text: the inverse of `Message`, so a reader
   * of the diagnostic can tell which step failed and what the parser said.
   */
  function ParseMessage(msg: string): (r: Option<ValidationError>)
    ensures r.Some? ==> Message(r.value) == msg
  {
    if msg == MissingNameText then Some(MissingInstanceName)
    else if msg == ConflictText then Some(ConflictingParamSources)
    else if Unwrap(JsonPrefix, msg).Some? then Some(InvalidJsonParams(Unwrap(JsonPrefix, msg).value))
    else if Unwrap(ParamPrefix, msg).Some? then Some(InvalidParams(Unwrap(ParamPrefix, msg).value))
    else if Unwrap(SecretPrefix, msg).Some? then Some(InvalidSecrets(Unwrap(SecretPrefix, msg).value))
    else None
  }

  /** Every message reads back as the error it was made from. */
  lemma ParseMessageRoundTrip(e: ValidationError)
    ensures ParseMessage(Message(e)) == Some(e)
  {
    var msg := Message(e);
    match e
    case MissingInstanceName =>
    case ConflictingParamSources =>
    case InvalidJsonParams(cause) =>
      assert msg[0] != MissingNameText[0] && msg[0] != ConflictText[0];
      UnwrapWrap(JsonPrefix, cause);
    case InvalidParams(cause) =>
      assert msg[0] != MissingNameText[0] && msg[0] != ConflictText[0];
      assert msg[15] != JsonPrefix[15];
      UnwrapWrap(ParamPrefix, cause);
    case InvalidSecrets(cause) =>
      assert msg[0] != MissingNameText[0] && msg[0] != ConflictText[0];
      assert msg[10] != JsonPrefix[10] && msg[10] != ParamPrefix[10];
      UnwrapWrap(SecretPrefix, cause);
  }

  /** Two different errors never share a text. */
  lemma MessageInjective(e1: ValidationError, e2: ValidationError)
    ensures Message(e1) == Message(e2) <==> e1 == e2
  {
    if Message(e1) == Message(e2) {
      ParseMessageRoundTrip(e1);
      ParseMessageRoundTrip(e2);
    }
  }
}
