/**
 * The scenarios of the command's test suite, as client methods that see the
 * command only through its contracts. Where a test depends on what a parser
 * answers, that answer is a precondition.
 */
module ProvisionScenarios {
  import opened Wrappers
  import opened Parameters
  import opened ServiceCatalog
  import opened ProvisionErrors
  import opened ProvisionSpec
  import opened InstanceCommand

  /** A fresh command with only the given flags set, as the tests build it. */
  method NewCmd<P>(app: App<P>, rawParams: seq<string>, jsonParams: string, rawSecrets: seq<string>)
    returns (cmd: ProvisionCmd<P>)
    ensures fresh(cmd) && cmd.app == app && cmd.output == []
    ensures cmd.rawParams == rawParams && cmd.jsonParams == jsonParams && cmd.rawSecrets == rawSecrets
    ensures cmd.Assigned() == Fields("", None, map[]) && !cmd.wait
  {
    cmd := new ProvisionCmd(app, "", false, 0, 0, "", "", "", rawParams, jsonParams, rawSecrets);
  }

  /** No instance name: the error names the missing argument. */
  method MissingNameFails<P>(app: App<P>, parsers: Parsers<P>) returns (msg: string, after: Fields<P>)
    ensures msg == "an instance name is required"
    ensures after == Fields("", None, map[])
  {
    var cmd := NewCmd(app, [], "", []);
    var err := cmd.Validate([], parsers);
    msg := Message(err.value);
    after := cmd.Assigned();
  }

  /** `--params-json` with `--param`: refused before any parser runs. */
  method ConflictFails<P>(app: App<P>, parsers: Parsers<P>) returns (msg: string, after: Fields<P>)
    ensures msg == "--params-json cannot be used with --param"
    ensures after == Fields("bananainstance", None, map[])
  {
    var cmd := NewCmd(app, ["a=b"], "{\"foo\":\"bar\"}", []);
    var err := cmd.Validate(["bananainstance"], parsers);
    msg := Message(err.value);
    after := cmd.Assigned();
  }

  /** A JSON parser failure is reported inside the `--params-json` context. */
  method BadJsonFails<P>(app: App<P>, parsers: Parsers<P>) returns (msg: string)
    requires parsers.variableJson("foo=bar").err == Some("invalid parameters (foo=bar)")
    ensures msg == "invalid --params-json value (" + "invalid parameters (foo=bar)" + ")"
  {
    var cmd := NewCmd(app, [], "foo=bar", []);
    var err := cmd.Validate(["bananainstance"], parsers);
    assert err == Some(InvalidJsonParams("invalid parameters (foo=bar)"));
    msg := Message(err.value);
  }

  /** A secret parser failure is reported inside the `--secret` context. */
  method BadSecretFails<P>(app: App<P>, parsers: Parsers<P>) returns (msg: string)
    requires parsers.variableAssignments([]).err == None
    requires parsers.keyMaps(["foo=bar"]).err == Some("invalid parameter (foo=bar), must be in MAP[KEY] format")
    ensures msg == "invalid --secret value (" + "invalid parameter (foo=bar), must be in MAP[KEY] format" + ")"
  {
    var cmd := NewCmd(app, [], "", ["foo=bar"]);
    var err := cmd.Validate(["bananainstance"], parsers);
    var cause := "invalid parameter (foo=bar), must be in MAP[KEY] format";
    assert err == Some(InvalidSecrets(cause));
    msg := Message(err.value);
  }

  /** Raw parameters only: `params` is what the assignment parser returned. */
  method RawParamsParsed<P>(app: App<P>, parsers: Parsers<P>, expected: P)
    returns (err: Option<ValidationError>, params: Option<P>)
    requires parsers.variableAssignments(["a=b"]) == Returned(expected, None)
    requires parsers.keyMaps([]).err == None
    ensures err == None && params == Some(expected)
  {
    var cmd := NewCmd(app, ["a=b"], "", []);
    err := cmd.Validate(["bananainstance"], parsers);
    params := cmd.params;
  }

  /**
   * A successful request without waiting: no error, the resource manager is
   * asked once (a provisioning request, no poll), and the returned instance is
   * reported once.
   */
  method RunProvisionsOnce() returns (err: Option<string>, calls: nat, reports: seq<Instance>)
    ensures err == None && calls == 1 && reports == [Instance("", "mysql1234", "")]
  {
    var instance := Instance("", "mysql1234", "");
    var app := new App<string>((r, h) => Ok(instance), (w, h) => Err("not polled"));
    var cmd := NewCmd(app, [], "", []);
    ghost var provisioned, polled;
    err, provisioned, polled := cmd.Run();
    assert provisioned == Ok(instance);
    calls := |app.exchanges|;
    reports := Reports(cmd.output);
    assert Reports([]) == [];
  }
}
