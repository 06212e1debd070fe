/** The records the agent sends to Rancher through its API client
    (`github.com/rancher/go-rancher/v2`), and what a handler's call of the
    publisher amounts to. */
module Rancher {
  import opened Wrappers
  import Kube

  /** `client.Service` as the agent fills it. `template` is the service object
      the agent stores under `Data["fields"]["template"]`; absent (Go's nil
      `Data`) when only the kind is set. */
  datatype RancherService = RancherService(
    kind: string,
    name: string,
    externalId: string,
    selectorContainer: string,
    template: Option<Kube.Service>,
    uuid: string,
    vip: string)

  /** A service descriptor with only its kind set, every other field at its
      Go zero value. */
  function KindOnly(kind: string): (s: RancherService)
    ensures s.kind == kind && s.name == s.externalId == s.selectorContainer == s.uuid == s.vip == ""
    ensures s.template.None?
  {
    RancherService(kind, "", "", "", None, "", "")
  }

  /** The `Environment` field of an external service event is a Go
      `interface{}`: left nil, a `map[string]string`, or a `*client.Stack`. */
  datatype Environment = NoEnvironment | EnvMap(fields: map<string, string>) | Stack(kind: string)

  /** `client.ExternalServiceEvent`. */
  datatype ExternalServiceEvent = ExternalServiceEvent(
    externalId: string,
    eventType: string,
    service: RancherService,
    environment: Environment)

  /** A value stored in the generic `map[string]interface{}` payload of a
      `client.Publish` record. */
  datatype Value = Str(text: string) | Obj(obj: Kube.Object)

  /** One record handed to the Rancher client: an external service event
      (`ExternalServiceEvent.Create`) or a publish record (`Publish.Create`). */
  datatype Record =
    | ServiceEvent(event: ExternalServiceEvent)
    | Publish(name: string, data: map<string, Value>)

  /** What a handler did: the records it handed to the publisher, in order,
      and the error it returned. */
  datatype Outcome = Outcome(sent: seq<Record>, err: Option<string>)

  /** Hand one record to the publisher, whose reply (`None` on success) is
      supplied by the caller, and return that reply unchanged as the error. */
  function Send(r: Record, reply: Option<string>): (o: Outcome)
    ensures o.sent == [r] && o.err == reply
  {
    Outcome([r], reply)
  }
}
