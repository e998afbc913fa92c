/**
 * What `ProvisionCmd.Validate` and `ProvisionCmd.Provision` compute, as
 * functions of the command's fields and of what the collaborators answer.
 * The methods of `InstanceCommand.ProvisionCmd` are proved against these.
 */
module ProvisionSpec {
  import opened Wrappers
  import opened Parameters
  import opened ServiceCatalog
  import opened ProvisionErrors

  // ---------------------------------------------------------------- Validate

  /** The fields `Validate` may assign. */
  datatype Fields<P> = Fields(instanceName: string, params: Option<P>, secrets: map<string, string>)

  /** The fields after `Validate`, with the error it returned (`None` for `nil`). */
  datatype Validated<P> = Validated(after: Fields<P>, err: Option<ValidationError>)

  /** `--params-json` and `--param` were both given. */
  predicate Conflicting(rawParams: seq<string>, jsonParams: string) {
    jsonParams != "" && |rawParams| > 0
  }

  /**
   * The one parameter parser that is consulted: the JSON parser when
   * `--params-json` is set, the assignment parser otherwise (even for no `--param`).
   */
  function ParseParams<P>(rawParams: seq<string>, jsonParams: string, parsers: Parsers<P>): Returned<P> {
    if jsonParams != "" then parsers.variableJson(jsonParams) else parsers.variableAssignments(rawParams)
  }

  /** The error reported when the consulted parameter parser fails with `cause`. */
  function ParamsError(jsonParams: string, cause: string): ValidationError {
    if jsonParams != "" then InvalidJsonParams(cause) else InvalidParams(cause)
  }

  /**
   * `Validate(args)`: guards in a fixed order, each field assigned as soon as it
   * is computed, so an early failure leaves the assignments made before it.
   */
  function Validation<P>(args: seq<string>, rawParams: seq<string>, jsonParams: string,
                         rawSecrets: seq<string>, before: Fields<P>, parsers: Parsers<P>): (r: Validated<P>)
    // no argument: nothing assigned
    ensures |args| == 0 ==> r == Validated(before, Some(MissingInstanceName))
    // otherwise the name is the first argument, and stays even if a later step fails
    ensures |args| > 0 ==> r.after.instanceName == args[0]
    // conflicting sources: only the name has changed
    ensures |args| > 0 && Conflicting(rawParams, jsonParams) ==>
              r == Validated(before.(instanceName := args[0]), Some(ConflictingParamSources))
    // no conflict: Params holds what the chosen parser returned, also when it failed
    ensures |args| > 0 && !Conflicting(rawParams, jsonParams) ==>
              r.after.params == Some(ParseParams(rawParams, jsonParams, parsers).value)
    // the chosen parser failed: its error in the matching context, Secrets untouched
    ensures |args| > 0 && !Conflicting(rawParams, jsonParams) && ParseParams(rawParams, jsonParams, parsers).err.Some? ==>
              r.after.secrets == before.secrets &&
              r.err == Some(ParamsError(jsonParams, ParseParams(rawParams, jsonParams, parsers).err.value))
    // parameters parsed: Secrets holds what ParseKeyMaps returned, and its error decides the result
    ensures |args| > 0 && !Conflicting(rawParams, jsonParams) && ParseParams(rawParams, jsonParams, parsers).err.None? ==>
              r.after.secrets == parsers.keyMaps(rawSecrets).value &&
              r.err == (match parsers.keyMaps(rawSecrets).err
                        case None => None
                        case Some(cause) => Some(InvalidSecrets(cause)))
    // success exactly when every step succeeded
    ensures r.err.None? <==>
              |args| > 0 && !Conflicting(rawParams, jsonParams) &&
              ParseParams(rawParams, jsonParams, parsers).err.None? && parsers.keyMaps(rawSecrets).err.None?
  {
    if |args| == 0 then Validated(before, Some(MissingInstanceName))
    else
      var named := before.(instanceName := args[0]);
      if jsonParams != "" && |rawParams| > 0 then Validated(named, Some(ConflictingParamSources))
      else
        var parsed := ParseParams(rawParams, jsonParams, parsers);
        var withParams := named.(params := Some(parsed.value));
        if parsed.err.Some? then Validated(withParams, Some(ParamsError(jsonParams, parsed.err.value)))
        else
          var secrets := parsers.keyMaps(rawSecrets);
          var withSecrets := withParams.(secrets := secrets.value);
          if secrets.err.Some? then Validated(withSecrets, Some(InvalidSecrets(secrets.err.value)))
          else Validated(withSecrets, None)
  }

  /** On the JSON path the assignment parser is never consulted. */
  lemma JsonPathIgnoresAssignments<P>(args: seq<string>, rawParams: seq<string>, jsonParams: string,
                                      rawSecrets: seq<string>, before: Fields<P>, parsers: Parsers<P>,
                                      other: seq<string> -> Returned<P>)
    requires jsonParams != ""
    ensures Validation(args, rawParams, jsonParams, rawSecrets, before, parsers)
         == Validation(args, rawParams, jsonParams, rawSecrets, before, parsers.(variableAssignments := other))
  {
  }

  /** Without `--params-json` the JSON parser is never consulted. */
  lemma AssignmentPathIgnoresJson<P>(args: seq<string>, rawParams: seq<string>,
                                     rawSecrets: seq<string>, before: Fields<P>, parsers: Parsers<P>,
                                     other: string -> Returned<P>)
    ensures Validation(args, rawParams, "", rawSecrets, before, parsers)
         == Validation(args, rawParams, "", rawSecrets, before, parsers.(variableJson := other))
  {
  }

  /**
   * No argument, conflicting sources, or a failed parameter parser: the result
   * does not depend on any parser that was not reached.
   */
  lemma EarlyFailureIgnoresLaterParsers<P>(args: seq<string>, rawParams: seq<string>, jsonParams: string,
                                           rawSecrets: seq<string>, before: Fields<P>,
                                           parsers: Parsers<P>, others: Parsers<P>)
    ensures |args| == 0 || Conflicting(rawParams, jsonParams) ==>
              (Validation(args, rawParams, jsonParams, rawSecrets, before, parsers)
               == Validation(args, rawParams, jsonParams, rawSecrets, before, others))
    ensures ParseParams(rawParams, jsonParams, parsers).err.Some? ==>
              (Validation(args, rawParams, jsonParams, rawSecrets, before, parsers)
               == Validation(args, rawParams, jsonParams, rawSecrets, before, parsers.(keyMaps := others.keyMaps)))
  {
  }

  /**
   * Validating a second time on the already validated fields gives the same
   * fields and the same error: `Validate` reads only inputs it never assigns.
   */
  lemma ValidationIdempotent<P>(args: seq<string>, rawParams: seq<string>, jsonParams: string,
                                rawSecrets: seq<string>, before: Fields<P>, parsers: Parsers<P>)
    ensures var first := Validation(args, rawParams, jsonParams, rawSecrets, before, parsers);
            Validation(args, rawParams, jsonParams, rawSecrets, first.after, parsers) == first
  {
  }

  // ---------------------------------------------------------------- Provision

  /** The text printed before polling starts. */
  const WaitingText := "Waiting for the instance to be provisioned..."

  /** A record written to the command's output. */
  datatype Line = Println(text: string) | InstanceDetails(instance: Instance)

  /** The instances reported in an output log, in order. */
  function Reports(lines: seq<Line>): seq<Instance> {
    if lines == [] then []
    else (if lines[0].InstanceDetails? then [lines[0].instance] else []) + Reports(lines[1..])
  }

  /** The reports of two consecutive stretches of output. */
  lemma {:induction false} ReportsAppend(a: seq<Line>, b: seq<Line>)
    ensures Reports(a + b) == Reports(a) + Reports(b)
  {
    if a == [] {
      assert a + b == b;
    } else {
      assert (a + b)[1..] == a[1..] + b;
      ReportsAppend(a[1..], b);
    }
  }

  /**
   * What `Provision` does after its request: `pollFor` is the poll it starts
   * (if any), `lines` what it writes, `err` what it returns.
   */
  datatype Outcome = Outcome(pollFor: Option<WaitRequest>, lines: seq<Line>, err: Option<string>)

  /**
   * Result selection in `Provision`, given the reply to the provisioning
   * request and the reply the poller would give if it is started.
   */
  function Orchestrate(wait: bool, interval: int, timeout: int,
                       provisioned: Result<Instance>, polled: Result<Instance>): (o: Outcome)
    // provisioning failed: its error, no output and no poll
    ensures provisioned.Err? ==> o == Outcome(None, [], Some(provisioned.error))
    // the poller is started exactly in wait mode after a successful request, for the returned instance
    ensures o.pollFor.Some? <==> provisioned.Ok? && wait
    ensures o.pollFor.Some? ==>
              o.pollFor.value == WaitRequest(provisioned.value.namespace, provisioned.value.name, interval, timeout)
    // after a successful request only the waiting line (in wait mode) and the report are written
    ensures provisioned.Ok? ==> |o.lines| == (if wait then 2 else 1)
    // after a successful request exactly one instance is reported, and it is the last line
    ensures provisioned.Ok? ==> |Reports(o.lines)| == 1 && o.lines[|o.lines| - 1].InstanceDetails?
    // the report is the polled instance if polling succeeded, the provisioned one otherwise
    ensures provisioned.Ok? ==>
              Reports(o.lines)[0] == (if wait && polled.Ok? then polled.value else provisioned.value)
    // in wait mode the waiting line comes first
    ensures provisioned.Ok? ==> (wait <==> o.lines[0] == Println(WaitingText))
    // in wait mode the poller's error is returned; otherwise nil
    ensures provisioned.Ok? ==> o.err == (if wait && polled.Err? then Some(polled.error) else None)
  {
    match provisioned
    case Err(e) => Outcome(None, [], Some(e))
    case Ok(instance) =>
      if wait then
        var finalInstance := if polled.Ok? then polled.value else instance;
        var lines := [Println(WaitingText), InstanceDetails(finalInstance)];
        assert Reports(lines) == [finalInstance] by {
          assert lines[1..] == [InstanceDetails(finalInstance)];
          assert lines[1..][1..] == [];
          assert Reports(lines[1..]) == [finalInstance];
        }
        Outcome(Some(WaitRequest(instance.namespace, instance.name, interval, timeout)), lines,
                if polled.Ok? then None else Some(polled.error))
      else
        var lines := [InstanceDetails(instance)];
        assert Reports(lines) == [instance] by { assert lines[1..] == []; }
        Outcome(None, lines, None)
  }

  /** The calls made to the resource manager, given the two replies. */
  function Calls<P>(request: ProvisionRequest<P>, o: Outcome, provisioned: Result<Instance>,
                    polled: Result<Instance>): seq<Exchange<P>> {
    [Provisioned(request, provisioned)] + (if o.pollFor.Some? then [Polled(o.pollFor.value, polled)] else [])
  }
}
