/**
 * The `svcat provision` command object: its fields, `Validate`, `Run` and
 * `Provision`. Flag parsing has already filled the input fields when
 * `Validate` is called; `Validate` fills `instanceName`, `params` and `secrets`.
 */
module InstanceCommand {
  import opened Wrappers
  import opened Parameters
  import opened ServiceCatalog
  import opened ProvisionErrors
  import opened ProvisionSpec

  class ProvisionCmd<P> {
    // from the command context and the embedded namespace and wait flags
    const app: App<P>
    var output: seq<Line>
    var namespace: string
    var wait: bool
    var interval: int
    var timeout: int

    var instanceName: string
    var externalID: string
    var className: string
    var planName: string
    var rawParams: seq<string>
    var jsonParams: string
    var params: Option<P>             // `None` is the nil interface
    var rawSecrets: seq<string>
    var secrets: map<string, string>  // a nil map is the empty map

    /** The command as flag parsing leaves it: nothing validated yet, nothing written. */
    constructor (app: App<P>, namespace: string, wait: bool, interval: int, timeout: int,
                 externalID: string, className: string, planName: string,
                 rawParams: seq<string>, jsonParams: string, rawSecrets: seq<string>)
      ensures this.app == app && output == []
      ensures this.namespace == namespace && this.wait == wait
      ensures this.interval == interval && this.timeout == timeout
      ensures instanceName == "" && this.externalID == externalID
      ensures this.className == className && this.planName == planName
      ensures this.rawParams == rawParams && this.jsonParams == jsonParams && params == None
      ensures this.rawSecrets == rawSecrets && secrets == map[]
    {
      this.app := app;
      output := [];
      this.namespace, this.wait, this.interval, this.timeout := namespace, wait, interval, timeout;
      instanceName := "";
      this.externalID, this.className, this.planName := externalID, className, planName;
      this.rawParams, this.jsonParams, params := rawParams, jsonParams, None;
      this.rawSecrets, secrets := rawSecrets, map[];
    }

    /** The fields `Validate` assigns. */
    function Assigned(): Fields<P>
      reads this
    {
      Fields(instanceName, params, secrets)
    }

    /** The request `Provision` sends, built from the current fields. */
    function Request(): ProvisionRequest<P>
      reads this
    {
      ProvisionRequest(instanceName, className, planName, ProvisionOptions(externalID, namespace, params, secrets))
    }

    /** Checks the arguments and flags and fills in the name, parameters and secrets. */
    method Validate(args: seq<string>, parsers: Parsers<P>) returns (err: Option<ValidationError>)
      modifies this`instanceName, this`params, this`secrets
      ensures Validated(Assigned(), err)
           == Validation(args, rawParams, jsonParams, rawSecrets, old(Assigned()), parsers)
    {
      if |args| == 0 {
        return Some(MissingInstanceName);
      }
      instanceName := args[0];

      if jsonParams != "" && |rawParams| > 0 {
        return Some(ConflictingParamSources);
      }

      if jsonParams != "" {
        var parsed := parsers.variableJson(jsonParams);
        params := Some(parsed.value);
        if parsed.err.Some? {
          return Some(InvalidJsonParams(parsed.err.value));
        }
      } else {
        var parsed := parsers.variableAssignments(rawParams);
        params := Some(parsed.value);
        if parsed.err.Some? {
          return Some(InvalidParams(parsed.err.value));
        }
      }

      var parsedSecrets := parsers.keyMaps(rawSecrets);
      secrets := parsedSecrets.value;
      if parsedSecrets.err.Some? {
        return Some(InvalidSecrets(parsedSecrets.err.value));
      }

      return None;
    }

    /**
     * Sends the provisioning request, polls in wait mode, and reports the
     * best-known instance. `provisioned` and `polled` are the replies received
     * (`polled` means nothing when no poll was started).
     */
    method Provision() returns (err: Option<string>, ghost provisioned: Result<Instance>, ghost polled: Result<Instance>)
      modifies this`output, app
      ensures provisioned == app.provisionReply(Request(), old(app.exchanges))
      ensures var o := Orchestrate(wait, interval, timeout, provisioned, polled);
              && app.exchanges == old(app.exchanges) + Calls(Request(), o, provisioned, polled)
              && (o.pollFor.Some? ==>
                    polled == app.waitReply(o.pollFor.value, old(app.exchanges) + [Provisioned(Request(), provisioned)]))
              && output == old(output) + o.lines
              && err == o.err
      // exactly one instance is added to the reports after a successful request, none otherwise
      ensures provisioned.Err? ==> Reports(output) == old(Reports(output))
      ensures provisioned.Ok? ==>
                Reports(output) == old(Reports(output)) + [if wait && polled.Ok? then polled.value else provisioned.value]
    {
      ghost var before := output;
      var opts := ProvisionOptions(externalID, namespace, params, secrets);
      var instance := app.Provision(instanceName, className, planName, opts);
      provisioned, polled := instance, instance;
      if instance.Err? {
        return Some(instance.error), provisioned, polled;
      }
      var reported := instance.value;

      if wait {
        output := output + [Println(WaitingText)];
        var finalInstance := app.WaitForInstance(reported.namespace, reported.name, interval, timeout);
        polled := finalInstance;
        if finalInstance.Ok? {
          reported := finalInstance.value;
        }
        // the request succeeded, so the instance is reported whatever the poller said
        output := output + [InstanceDetails(reported)];
        err := if finalInstance.Err? then Some(finalInstance.error) else None;
        assert output == before + [Println(WaitingText), InstanceDetails(reported)];
        ReportsAppend(before, Orchestrate(wait, interval, timeout, provisioned, polled).lines);
        return;
      }

      output := output + [InstanceDetails(reported)];
      ReportsAppend(before, Orchestrate(wait, interval, timeout, provisioned, polled).lines);
      return None, provisioned, polled;
    }

    /** `Run` is `Provision`. */
    method Run() returns (err: Option<string>, ghost provisioned: Result<Instance>, ghost polled: Result<Instance>)
      modifies this`output, app
      ensures provisioned == app.provisionReply(Request(), old(app.exchanges))
      ensures var o := Orchestrate(wait, interval, timeout, provisioned, polled);
              && app.exchanges == old(app.exchanges) + Calls(Request(), o, provisioned, polled)
              && (o.pollFor.Some? ==>
                    polled == app.waitReply(o.pollFor.value, old(app.exchanges) + [Provisioned(Request(), provisioned)]))
              && output == old(output) + o.lines
              && err == o.err
      ensures provisioned.Err? ==> Reports(output) == old(Reports(output))
      ensures provisioned.Ok? ==>
                Reports(output) == old(Reports(output)) + [if wait && polled.Ok? then polled.value else provisioned.value]
    {
      err, provisioned, polled := Provision();
    }
  }
}
