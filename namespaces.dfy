/** The namespace translator (`namespaceHandler`): additions and
    modifications of namespaces are skipped; a deleted namespace becomes a
    `stack.remove` event addressed by `kubernetes://<uid>`. */
module NamespaceWatch {
  import opened Wrappers
  import opened Kube
  import opened Rancher
  import ServiceWatch

  const StackRemove := "stack.remove"
  /** The kind of the stack descriptor sent as the event's environment. */
  const EnvironmentKind := "environment"

  /** `namespaceHandler.delete`: publish one event addressed by the
      namespace's UID behind the `kubernetes://` prefix; its event type is
      `stack.remove` when the change is "Deleted" and left empty otherwise;
      the environment is a stack of kind "environment" and the service
      descriptor holds only its kind. The publisher's reply is returned. */
  function Delete(ns: Namespace, eventType: string, reply: Option<string>): (o: Outcome)
    ensures |o.sent| == 1 && o.sent[0].ServiceEvent? && o.err == reply
    ensures o.sent[0].event.externalId == ServiceWatch.ExternalIdPrefix + ns.meta.uid
    ensures o.sent[0].event.eventType == StackRemove <==> eventType == "Deleted"
    ensures eventType != "Deleted" ==> o.sent[0].event.eventType == ""
    ensures o.sent[0].event.environment == Stack(EnvironmentKind)
    ensures o.sent[0].event.service == KindOnly(ServiceWatch.KubernetesServiceKind)
  {
    var eventType' := if eventType == "Deleted" then StackRemove else "";
    var event := ExternalServiceEvent(
      ServiceWatch.ExternalIdPrefix + ns.meta.uid, eventType',
      KindOnly(ServiceWatch.KubernetesServiceKind), Stack(EnvironmentKind));
    Send(ServiceEvent(event), reply)
  }

  /** The informer callbacks of `startNamespaceWatch`: AddFunc and UpdateFunc
      only log, DeleteFunc calls `delete` with "Deleted" (its error is only
      logged). Only a deletion is forwarded, and it is always a `stack.remove`. */
  function OnChange(change: Change<Namespace>, reply: Option<string>): (sent: seq<Record>)
    ensures change.Added? || change.Modified? ==> sent == []
    ensures change.Deleted? ==> |sent| == 1 && sent[0].ServiceEvent? && sent[0].event.eventType == StackRemove
    ensures change.Deleted? ==> sent[0].event.externalId == ServiceWatch.ExternalIdPrefix + change.obj.meta.uid
  {
    match change
    case Added(_) => []
    case Modified(_, _) => []
    case Deleted(obj) => Delete(obj, "Deleted", reply).sent
  }

  /** A namespace's `stack.remove` is addressed differently from the
      `service.remove` of a service with the same UID: namespace events carry
      the `kubernetes://` prefix, service events the bare UID. */
  lemma RemoveAddressesDiffer(ns: Namespace, svc: Service, reply: Option<string>)
    requires ns.meta.uid == svc.meta.uid
    ensures Delete(ns, "Deleted", reply).sent[0].event.externalId
         != ServiceWatch.Delete(svc, reply).sent[0].event.externalId
  {
    var u := ns.meta.uid;
    assert |ServiceWatch.ExternalIdPrefix + u| == |u| + 13;
  }
}
