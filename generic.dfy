/** The generic translator (`genericHandler`): one watch per requested
    resource kind, each change forwarded verbatim to Rancher inside a
    `{type, object}` envelope. */
module GenericWatch {
  import opened Wrappers
  import opened Kube
  import opened Rancher

  /** The name of every record the generic handler publishes. */
  const ChangeRecordName := "service.kubernetes.change"

  /** The object types a generic watch can decode into. */
  datatype ObjectType =
    | Pod | NamespaceType | Secret | ReplicationController | ServiceType
    | PersistentVolume | PersistentVolumeClaim | Deployment | Job | Ingress
    | HorizontalPodAutoscaler

  /** The API group whose REST client a watch is opened through. */
  datatype ApiGroup = Core | AppsV1beta1 | BatchV1 | ExtensionsV1beta1 | AutoscalingV1

  /** The resource kinds watched when none are named on the command line
      (the default of the `watch-kind` flag). */
  const DefaultWatchKinds: seq<string> := [
    "namespaces", "services", "replicationcontrollers", "pods",
    "deployments", "replicasets", "ingresses", "jobs", "horizontalpodautoscalers",
    "persistentvolumes", "persistentvolumeclaims", "secrets"]

  /** `getRuntimeObject`: the object type and API group for a resource name;
      any name not in the table falls back to a pod on the core client. The
      group always belongs to the type, and a type other than a pod always
      comes from its own resource name. */
  function RuntimeObject(resName: string): (r: (ObjectType, ApiGroup))
    ensures r.1 == GroupOf(r.0)
    ensures r.0 != Pod ==> ResourceName(r.0) == resName
  {
    match resName
    case "pods" => (Pod, Core)
    case "namespaces" => (NamespaceType, Core)
    case "secrets" => (Secret, Core)
    case "replicationcontrollers" => (ReplicationController, Core)
    case "services" => (ServiceType, Core)
    case "persistentvolumes" => (PersistentVolume, Core)
    case "persistentvolumeclaims" => (PersistentVolumeClaim, Core)
    case "deployments" => (Deployment, AppsV1beta1)
    case "jobs" => (Job, BatchV1)
    case "ingresses" => (Ingress, ExtensionsV1beta1)
    case "horizontalpodautoscalers" => (HorizontalPodAutoscaler, AutoscalingV1)
    case _ => (Pod, Core)
  }

  /** The Kubernetes resource name of each object type: the reference the
      table above is checked against. */
  function ResourceName(t: ObjectType): string {
    match t
    case Pod => "pods"
    case NamespaceType => "namespaces"
    case Secret => "secrets"
    case ReplicationController => "replicationcontrollers"
    case ServiceType => "services"
    case PersistentVolume => "persistentvolumes"
    case PersistentVolumeClaim => "persistentvolumeclaims"
    case Deployment => "deployments"
    case Job => "jobs"
    case Ingress => "ingresses"
    case HorizontalPodAutoscaler => "horizontalpodautoscalers"
  }

  /** The API group each object type is served from. */
  function GroupOf(t: ObjectType): ApiGroup {
    match t
    case Deployment => AppsV1beta1
    case Job => BatchV1
    case Ingress => ExtensionsV1beta1
    case HorizontalPodAutoscaler => AutoscalingV1
    case _ => Core
  }

  /** Every object type is found under its own resource name, with its own
      API group. */
  lemma RuntimeObjectRoundTrip(t: ObjectType)
    ensures RuntimeObject(ResourceName(t)) == (t, GroupOf(t))
  {
    match t
    case Pod =>
    case NamespaceType =>
    case Secret =>
    case ReplicationController =>
    case ServiceType =>
    case PersistentVolume =>
    case PersistentVolumeClaim =>
    case Deployment =>
    case Job =>
    case Ingress =>
    case HorizontalPodAutoscaler =>
  }

  /** The fallback: a name that is no type's resource name gets a pod on the
      core client. */
  lemma RuntimeObjectFallback(resName: string)
    ensures (forall t: ObjectType :: ResourceName(t) != resName) ==> RuntimeObject(resName) == (Pod, Core)
  {
    if forall t: ObjectType :: ResourceName(t) != resName {
      assert ResourceName(Pod) != resName && ResourceName(NamespaceType) != resName;
      assert ResourceName(Secret) != resName && ResourceName(ReplicationController) != resName;
      assert ResourceName(ServiceType) != resName && ResourceName(PersistentVolume) != resName;
      assert ResourceName(PersistentVolumeClaim) != resName && ResourceName(Deployment) != resName;
      assert ResourceName(Job) != resName && ResourceName(Ingress) != resName;
      assert ResourceName(HorizontalPodAutoscaler) != resName;
    }
  }

  /** "replicasets" is watched by default but has no entry in the table: its
      watch decodes into pods through the core client. Every other default
      kind gets its own type. */
  lemma DefaultKindsResolve()
    ensures "replicasets" in DefaultWatchKinds && RuntimeObject("replicasets") == (Pod, Core)
    ensures forall k :: k in DefaultWatchKinds && k != "replicasets" ==>
      ResourceName(RuntimeObject(k).0) == k
  {
    forall k | k in DefaultWatchKinds && k != "replicasets"
      ensures ResourceName(RuntimeObject(k).0) == k
    {
      var i :| 0 <= i < |DefaultWatchKinds| && DefaultWatchKinds[i] == k;
      assert i != 5;
    }
  }

  /** A watch as `startGenericWatch` opens it: a list-watch on the requested
      resource name, decoding into the table's object type, through the
      table's API group client. */
  datatype Watch = Watch(resource: string, objType: ObjectType, group: ApiGroup)

  /** `startGenericWatch`: the resource name is used as given, even when the
      object type fell back to a pod. */
  function StartGenericWatch(resName: string): (w: Watch)
    ensures w.resource == resName
    ensures (w.objType, w.group) == RuntimeObject(resName)
  {
    var (objType, group) := RuntimeObject(resName);
    Watch(resName, objType, group)
  }

  /** `rancherPatch`: publish one record named `service.kubernetes.change`
      whose data holds exactly the change type and the object. */
  function RancherPatch(obj: Object, eventType: string, reply: Option<string>): (o: Outcome)
    ensures |o.sent| == 1 && o.sent[0].Publish? && o.err == reply
    ensures o.sent[0].name == ChangeRecordName
    ensures o.sent[0].data.Keys == {"type", "object"}
    ensures o.sent[0].data["type"] == Str(eventType) && o.sent[0].data["object"] == Obj(obj)
  {
    Send(Publish(ChangeRecordName, map["type" := Str(eventType), "object" := Obj(obj)]), reply)
  }

  /** The informer callbacks of `startGenericWatch`: an addition is published
      as "ADDED", a deletion as "DELETED", a modification as "MODIFIED" with
      the new object; the publisher's error is dropped. */
  function OnChange(change: Change<Object>, reply: Option<string>): (sent: seq<Record>)
    ensures |sent| == 1 && sent[0].Publish? && sent[0].name == ChangeRecordName
    ensures sent[0].data.Keys == {"type", "object"}
    ensures sent[0].data["type"] == Str(match change
                                          case Added(_) => "ADDED"
                                          case Modified(_, _) => "MODIFIED"
                                          case Deleted(_) => "DELETED")
    ensures sent[0].data["object"] == Obj(if change.Modified? then change.newObj else change.obj)
  {
    match change
    case Added(obj) => RancherPatch(obj, "ADDED", reply).sent
    case Modified(_, newObj) => RancherPatch(newObj, "MODIFIED", reply).sent
    case Deleted(obj) => RancherPatch(obj, "DELETED", reply).sent
  }

  /** Nothing but the old object of a modification is lost: two changes that
      publish the same record are of the same kind and carry the same
      current object. */
  lemma OnChangeFaithful(c1: Change<Object>, c2: Change<Object>, reply1: Option<string>, reply2: Option<string>)
    requires OnChange(c1, reply1) == OnChange(c2, reply2)
    ensures c1.Added? == c2.Added? && c1.Modified? == c2.Modified? && c1.Deleted? == c2.Deleted?
    ensures (if c1.Modified? then c1.newObj else c1.obj) == (if c2.Modified? then c2.newObj else c2.obj)
  {
    var d1 := OnChange(c1, reply1)[0].data;
    var d2 := OnChange(c2, reply2)[0].data;
    assert d1["type"] == d2["type"] && d1["object"] == d2["object"];
    assert |"ADDED"| == 5 && |"MODIFIED"| == 8 && |"DELETED"| == 7;
  }

  /** `genericHandler`: keeps one stop handle per started watch. A handle is
      modelled by the watch it stops; an unset slot (Go's nil channel) by
      `None`. */
  class GenericHandler {
    var genericWatchChan: array<Option<Watch>>

    constructor ()
      ensures genericWatchChan.Length == 0
    {
      genericWatchChan := new Option<Watch>[0];
    }

    /** `Start`: a fresh slice of `|resNames|` slots, slot k holding the
        watch started for `resNames[k]`. */
    method Start(resNames: seq<string>)
      modifies this
      ensures fresh(genericWatchChan)
      ensures genericWatchChan.Length == |resNames|
      ensures forall k :: 0 <= k < |resNames| ==> genericWatchChan[k] == Some(StartGenericWatch(resNames[k]))
    {
      genericWatchChan := new Option<Watch>[|resNames|](_ => None);
      for k := 0 to |resNames|
        invariant fresh(genericWatchChan) && genericWatchChan.Length == |resNames|
        invariant forall j :: 0 <= j < k ==> genericWatchChan[j] == Some(StartGenericWatch(resNames[j]))
      {
        genericWatchChan[k] := Some(StartGenericWatch(resNames[k]));
      }
    }
  }
}
