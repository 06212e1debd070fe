/** The shapes of the Kubernetes objects the agent reads: object metadata,
    services, namespaces, any other watched object, and the change
    notifications a watch delivers. Only the fields the agent looks at are kept. */
module Kube {
  import opened Wrappers

  /** `metav1.ObjectMeta`: name, namespace, UID and labels. */
  datatype ObjectMeta = ObjectMeta(
    name: string,
    namespace: string,
    uid: string,
    labels: map<string, string>)

  /** `v1.Service`: its metadata, `Spec.Selector` (a Go map, which may be nil)
      and `Spec.ClusterIP`. */
  datatype Service = Service(
    meta: ObjectMeta,
    selector: Option<map<string, string>>,
    clusterIP: string)

  /** `v1.Namespace`: only its metadata is read. */
  datatype Namespace = Namespace(meta: ObjectMeta)

  /** Any object a generic watch delivers; the generic handler never looks
      inside it, it only forwards it. */
  datatype Object = Object(kind: string, meta: ObjectMeta)

  /** One notification from a watch: the informer calls AddFunc, UpdateFunc
      (with the old and the new object) or DeleteFunc. */
  datatype Change<T> = Added(obj: T) | Modified(oldObj: T, newObj: T) | Deleted(obj: T)
}
