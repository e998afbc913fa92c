# svcat provision: command model

A Dafny model of the `svcat provision` command object (`ProvisionCmd`) of the
service-catalog command-line tool. The command validates its positional
argument and flags, fills in the instance name, the parameter payload and the
secret references, sends one provisioning request to the resource manager, and
in wait mode polls until the instance settles, always reporting the best-known
instance snapshot.

Files and modules:

- `wrappers.dfy` (`Wrappers`): `Option` (Go's `nil` or a value) and `Result` (a reply or an error text).
- `parameters.dfy` (`Parameters`): the three parsers of the `parameters` package as arbitrary total
  functions, each returning Go's value-and-error pair (`Returned`).
- `service_catalog.dfy` (`ServiceCatalog`): instance snapshots, the request types, and the `App` client
  as a class whose replies are arbitrary functions of the request and of the calls made before; it logs
  every call with its reply in `exchanges`.
- `provision_errors.dfy` (`ProvisionErrors`): the validation errors, their exact texts, and the
  inverse that reads an error back from its text.
- `provision_spec.dfy` (`ProvisionSpec`): `Validation` and `Orchestrate`, the functions that say what
  `Validate` and `Provision` do, with the lemmas about them.
- `provision_cmd.dfy` (`InstanceCommand`): the `ProvisionCmd` class with the source's fields and the
  methods `Validate`, `Provision` and `Run`, proved against those functions.
- `provision_scenarios.dfy` (`ProvisionScenarios`): the command's test scenarios as client methods.

Modelling choices:

- The parameter payload (`Params interface{}`) is a type parameter `P`; `None` is the nil interface.
  Go's `c.Params, err = ...` assigns the field even when the parser fails, so the model keeps whatever
  value the parser returned beside its error. The same holds for `Secrets`.
- A nil `Secrets` map is the empty map.
- The output writer is the sequence `output` of records (`Println(text)` or `InstanceDetails(instance)`).
- Durations (`Interval`, `Timeout`) are unbounded integers standing for Go `time.Duration`; the command
  only passes them on.

Behaviour of the command that the model keeps:

- `Validate` is not atomic: it assigns `InstanceName` before the later checks, and assigns `Params` /
  `Secrets` even when their parser fails, so a failing `Validate` leaves those assignments behind.
- Any non-empty argument list is accepted; the first argument is the name and the rest are ignored.
- In wait mode a poll failure or timeout is returned as the command's error after the instance has
  been reported, so the command fails even though provisioning succeeded.
- Secret references are `map<string, string>`, the type of the `Secrets` field.
- Calling `Validate` a second time on the same command is allowed and gives the same fields and the same
  error (`ValidationIdempotent`).

## Model

| member | source | states |
|---|---|---|
| `ProvisionSpec.Validation` | cmd/svcat/instance/provision_cmd.go:91-121 | no argument: error "an instance name is required", fields unchanged; otherwise the name is the first argument and survives later failures; both parameter sources: conflict error, only the name changed; else `params` is what the chosen parser returned, its error is wrapped in the matching context and leaves `secrets` alone; after parameters parse, `secrets` is what ParseKeyMaps returned and its error is wrapped in the secret context; nil exactly when all four steps succeed |
| `ProvisionSpec.JsonPathIgnoresAssignments` | cmd/svcat/instance/provision_cmd.go:103-107 | with `--params-json` set, the assignment parser does not influence the outcome |
| `ProvisionSpec.AssignmentPathIgnoresJson` | cmd/svcat/instance/provision_cmd.go:108-113 | with `--params-json` empty, the JSON parser does not influence the outcome |
| `ProvisionSpec.EarlyFailureIgnoresLaterParsers` | cmd/svcat/instance/provision_cmd.go:92-113 | no argument or conflicting sources: no parser influences the outcome; a failed parameter parser: the secret parser does not |
| `ProvisionSpec.ValidationIdempotent` | cmd/svcat/instance/provision_cmd.go:91-121 | validating again on the fields a validation left gives the same fields and error |
| `ProvisionSpec.ReportsAppend` | cmd/svcat/instance/provision_cmd.go:148-152 | the reports of an output log are the reports of its parts, in order |
| `ProvisionSpec.Orchestrate` | cmd/svcat/instance/provision_cmd.go:134-153 | provisioning error: returned as is, nothing written, no poll; success: the poll is started exactly in wait mode, for the returned instance's namespace and name with the command's interval and timeout; nothing is written but the waiting line (first, exactly in wait mode) and exactly one report, last, of the polled instance if polling succeeded and of the provisioned one otherwise; the poll error is returned in wait mode, nil otherwise |
| `ProvisionErrors.Message` | cmd/svcat/instance/provision_cmd.go:93-117 | the five error texts: the two fixed messages, and the parser's message wrapped in the `--params-json`, `--param` or `--secret` context |
| `InstanceCommand.ProvisionCmd.Request` | cmd/svcat/instance/provision_cmd.go:128-134 | the provisioning request: name, class and plan, with the external id, namespace, payload and secrets as options |
| `ProvisionErrors.ParseMessage` | cmd/svcat/instance/provision_cmd.go:93-117 | an error read back from a text has exactly that text |
| `ProvisionErrors.ParseMessageRoundTrip` | cmd/svcat/instance/provision_cmd.go:93-117 | every validation error's text reads back as that error, so the context prefix tells which step failed and the parser's own message is kept whole |
| `ProvisionErrors.MessageInjective` | cmd/svcat/instance/provision_cmd.go:93-117 | two validation errors have the same text exactly when they are the same error |
| `ProvisionErrors.Unwrap` | cmd/svcat/instance/provision_cmd.go:106 | a text it accepts is the prefix, a cause and a closing parenthesis |
| `ProvisionErrors.UnwrapWrap` | cmd/svcat/instance/provision_cmd.go:106 | unwrapping a wrapped cause gives back that cause |
| `InstanceCommand.ProvisionCmd.constructor` | cmd/svcat/instance/provision_cmd.go:29-42 | the command's fields as flag parsing leaves them: name empty, payload nil, no secrets, nothing written |
| `InstanceCommand.ProvisionCmd.Validate` | cmd/svcat/instance/provision_cmd.go:91-121 | changes only the name, the payload and the secrets, to what `Validation` gives, and returns its error |
| `InstanceCommand.ProvisionCmd.Provision` | cmd/svcat/instance/provision_cmd.go:127-154 | sends the request built from the fields; the calls logged, the records written and the error returned are those of `Orchestrate` on the replies received; one report is added after a successful request, none after a failed one |
| `InstanceCommand.ProvisionCmd.Run` | cmd/svcat/instance/provision_cmd.go:123-125 | the same calls, output and error as `Provision` |
| `ServiceCatalog.App.Provision` | cmd/svcat/instance/provision_cmd.go:134 | one provisioning request is logged with the reply it got |
| `ServiceCatalog.App.WaitForInstance` | cmd/svcat/instance/provision_cmd.go:141 | one poll is logged with its outcome |
| `ProvisionScenarios.MissingNameFails` | cmd/svcat/instance/provision_cmd_test.go:75-80 | no argument: the error text is "an instance name is required" and no field changed |
| `ProvisionScenarios.ConflictFails` | cmd/svcat/instance/provision_cmd_test.go:81-89 | JSON and raw parameters: the conflict text, only the name assigned |
| `ProvisionScenarios.BadJsonFails` | cmd/svcat/instance/provision_cmd_test.go:110-117 | the JSON parser's message appears inside "invalid --params-json value (...)" |
| `ProvisionScenarios.BadSecretFails` | cmd/svcat/instance/provision_cmd_test.go:125-132 | the secret parser's message appears inside "invalid --secret value (...)" |
| `ProvisionScenarios.RawParamsParsed` | cmd/svcat/instance/provision_cmd_test.go:100-109 | raw parameters only: success, and the payload is what the assignment parser returned |
| `ProvisionScenarios.RunProvisionsOnce` | cmd/svcat/instance/provision_cmd_test.go:151-166 | a successful request without waiting: no error, one call to the resource manager, the returned instance reported once |

## Left out

- `NewProvisionCmd` (flag registration, help and example text, required flags): command-line plumbing
  with no logic; the constructor takes the flag values directly.
- The grammars of `ParseVariableJSON`, `ParseVariableAssignments` and `ParseKeyMaps` (token syntax,
  duplicate-key policy, JSON decoding): their package is not part of this model, so they are arbitrary
  functions.
- The internals of `App.Provision` and `App.WaitForInstance`: network calls and the poller's
  sleep/timeout loop (interval, deadline, cancellation) are not visible in the command; the model keeps
  only their success or error replies, as arbitrary functions of the request and the call history.
- The formatting done by `output.WriteInstanceDetails` and `fmt.Fprintln`: each is one record appended
  to the output log.
- The embedded namespace and wait flag types: their `Namespace`, `Wait`, `Interval` and `Timeout` fields
  are plain inputs of the constructor.
- InstanceCommand.ProvisionCmd.Provision: the order between output records and resource-manager calls is
  not stated (the waiting line is written before the poll starts); output and calls are two separate logs.
- The test at cmd/svcat/instance/provision_cmd_test.go:151-166 checks a registration call count that the
  command never makes; `RunProvisionsOnce` checks the provisioning call count its title describes instead.
- The difference between a nil map and an empty map for `Secrets`.
