/**
 * The resource-manager client (`App`) that the provision command talks to.
 * Its replies come from the remote side; the model makes them arbitrary
 * functions of the request and of everything asked before, and keeps a log of
 * every exchange so that callers can state which calls were made.
 */
module ServiceCatalog {
  import opened Wrappers

  /**
   * A service-instance snapshot. Only the namespace and name are read by the
   * command; `state` stands for the rest of the resource (spec and status).
   */
  datatype Instance = Instance(namespace: string, name: string, state: string)

  /** The options passed with a provisioning request. */
  datatype ProvisionOptions<P> = ProvisionOptions(
    externalID: string,
    namespace: string,
    params: Option<P>,
    secrets: map<string, string>)

  /** The arguments of `App.Provision`. */
  datatype ProvisionRequest<P> = ProvisionRequest(
    instanceName: string,
    className: string,
    planName: string,
    options: ProvisionOptions<P>)

  /** The arguments of `App.WaitForInstance`; durations are Go `time.Duration` values. */
  datatype WaitRequest = WaitRequest(namespace: string, name: string, interval: int, timeout: int)

  /** One call made to the resource manager, with the reply it gave. */
  datatype Exchange<P> =
    | Provisioned(request: ProvisionRequest<P>, reply: Result<Instance>)
    | Polled(wait: WaitRequest, reply: Result<Instance>)

  class App<P> {
    /** How the resource manager answers a provisioning request, given the history. */
    const provisionReply: (ProvisionRequest<P>, seq<Exchange<P>>) -> Result<Instance>
    /** How the poller ends (final snapshot, or timeout / query error), given the history. */
    const waitReply: (WaitRequest, seq<Exchange<P>>) -> Result<Instance>
    /** Every call made so far, oldest first. */
    var exchanges: seq<Exchange<P>>

    constructor (provisionReply: (ProvisionRequest<P>, seq<Exchange<P>>) -> Result<Instance>,
                 waitReply: (WaitRequest, seq<Exchange<P>>) -> Result<Instance>)
      ensures this.provisionReply == provisionReply && this.waitReply == waitReply
      ensures exchanges == []
    {
      this.provisionReply := provisionReply;
      this.waitReply := waitReply;
      exchanges := [];
    }

    /** Requests creation of an instance. */
    method Provision(instanceName: string, className: string, planName: string, opts: ProvisionOptions<P>)
      returns (r: Result<Instance>)
      modifies this
      ensures r == provisionReply(ProvisionRequest(instanceName, className, planName, opts), old(exchanges))
      ensures exchanges == old(exchanges) + [Provisioned(ProvisionRequest(instanceName, className, planName, opts), r)]
    {
      var request := ProvisionRequest(instanceName, className, planName, opts);
      r := provisionReply(request, exchanges);
      exchanges := exchanges + [Provisioned(request, r)];
    }

    /** Blocks until the named instance is in a terminal state, or the poll fails or times out. */
    method WaitForInstance(namespace: string, name: string, interval: int, timeout: int)
      returns (r: Result<Instance>)
      modifies this
      ensures r == waitReply(WaitRequest(namespace, name, interval, timeout), old(exchanges))
      ensures exchanges == old(exchanges) + [Polled(WaitRequest(namespace, name, interval, timeout), r)]
    {
      var request := WaitRequest(namespace, name, interval, timeout);
      r := waitReply(request, exchanges);
      exchanges := exchanges + [Polled(request, r)];
    }
  }
}
