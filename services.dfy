/** The service translator (`serviceHandler`): a Service added or modified
    becomes a `service.create` or `service.update` external service event
    carrying the selector string, the virtual IP and the environment the
    service belongs to; a Service deleted becomes a bare `service.remove`. */
module ServiceWatch {
  import opened Wrappers
  import opened Kube
  import opened Rancher
  import opened Text

  const KubernetesServiceKind := "kubernetesService"
  /** The selector key the agent adds so that only pods of the service's own
      namespace match. */
  const PodNamespaceKey := "io.kubernetes.pod.namespace"
  /** The label holding the identifier Rancher assigned to an object. */
  const RancherUuidLabel := "io.rancher.uuid"
  /** The namespace whose environment is addressed without a lookup. */
  const SystemNamespace := "kube-system"
  const ExternalIdPrefix := "kubernetes://"

  /** Go's `v, _ := m[k]` on a `map[string]string`: the value, or "" when the
      key is absent. */
  function LabelOr(labels: map<string, string>, key: string): (v: string)
    ensures key in labels ==> v == labels[key]
    ensures key !in labels ==> v == ""
  {
    if key in labels then labels[key] else ""
  }

  /** One `key=value` piece of the selector string. */
  function Piece(m: map<string, string>, key: string): string
    requires key in m
  {
    key + "=" + m[key]
  }

  /** The pieces for the keys of `m`, visited in `order`. */
  function Pieces(m: map<string, string>, order: seq<string>): (ps: seq<string>)
    requires forall k :: k in order ==> k in m
    ensures |ps| == |order|
    ensures forall i :: 0 <= i < |order| ==> ps[i] == Piece(m, order[i])
    decreases |order|
  {
    if |order| == 0 then []
    else Pieces(m, order[..|order| - 1]) + [Piece(m, order[|order| - 1])]
  }

  /** `order` visits every key of `keys` exactly once (it has as many
      entries as there are keys, and holds each of them): one possible Go map
      iteration order. */
  ghost predicate IsEnumeration(order: seq<string>, keys: set<string>) {
    |order| == |keys| && forall k :: k in order <==> k in keys
  }

  /** The ASCII spellings of "None" in any mix of cases. */
  predicate IsNoneSpelling(s: string) {
    |s| == 4 && s[0] in "nN" && s[1] in "oO" && s[2] in "nN" && s[3] in "eE"
  }

  /** The service's virtual IP: its cluster IP, unless that is the headless
      sentinel "None" compared case-insensitively. */
  function Vip(clusterIP: string): (vip: string)
    ensures vip == "" <==> clusterIP == "" || IsNoneSpelling(clusterIP)
    ensures vip != "" ==> vip == clusterIP
  {
    if EqualFold(clusterIP, "None") then
      assert IsNoneSpelling(clusterIP) by {
        assert ToLower(clusterIP[0]) == 'n' && ToLower(clusterIP[1]) == 'o';
        assert ToLower(clusterIP[2]) == 'n' && ToLower(clusterIP[3]) == 'e';
      }
      ""
    else
      assert !IsNoneSpelling(clusterIP);
      clusterIP
  }

  /** Visiting one more key appends its piece. */
  lemma PiecesSnoc(m: map<string, string>, order: seq<string>, key: string)
    requires forall k :: k in order ==> k in m
    requires key in m
    ensures Pieces(m, order + [key]) == Pieces(m, order) + [Piece(m, key)]
  {
    assert (order + [key])[..|order|] == order;
  }

  /** Writing the key, "=", the value and "," to a buffer that holds the
      terminated pieces of the keys visited so far gives the terminated
      pieces with the key visited too. */
  lemma BufferStep(m: map<string, string>, order: seq<string>, key: string, buffer: string)
    requires forall k :: k in order ==> k in m
    requires key in m && buffer == Terminated(Pieces(m, order), ",")
    ensures buffer + key + "=" + m[key] + "," == Terminated(Pieces(m, order + [key]), ",")
  {
    PiecesSnoc(m, order, key);
    var pieces := Pieces(m, order + [key]);
    assert pieces[..|pieces| - 1] == Pieces(m, order);
  }

  /** Part way through a map iteration: `order` lists the keys visited so
      far and `remaining` the keys still to visit, with no key counted twice. */
  ghost predicate Visiting(keys: set<string>, order: seq<string>, remaining: set<string>) {
    remaining <= keys &&
    (forall k :: k in order ==> k in keys && k !in remaining) &&
    (forall k :: k in keys ==> k in order || k in remaining) &&
    |order| + |remaining| == |keys|
  }

  /** Visiting one more remaining key keeps the iteration consistent. */
  lemma VisitOne(keys: set<string>, order: seq<string>, remaining: set<string>, key: string)
    requires Visiting(keys, order, remaining) && key in remaining
    ensures Visiting(keys, order + [key], remaining - {key})
  {
    assert |remaining - {key}| == |remaining| - 1;
  }

  /** Serialise a selector as `key=value` pieces joined by ",", visiting the
      map in an unspecified order (Go's map iteration order), with the
      trailing comma trimmed. A nil selector is ranged over as an empty one. */
  method SerializeSelector(selector: Option<map<string, string>>) returns (s: string, ghost order: seq<string>)
    ensures selector.None? ==> order == [] && s == ""
    ensures selector.Some? ==> IsEnumeration(order, selector.value.Keys)
    ensures selector.Some? ==> s == Join(Pieces(selector.value, order), ",")
    ensures s == "" <==> selector.None? || |selector.value| == 0
  {
    var m := if selector.Some? then selector.value else map[];
    var buffer := "";
    var remaining := m.Keys;
    order := [];
    while remaining != {}
      invariant Visiting(m.Keys, order, remaining)
      invariant buffer == Terminated(Pieces(m, order), ",")
      decreases |remaining|
    {
      var key :| key in remaining;
      VisitOne(m.Keys, order, remaining, key);
      BufferStep(m, order, key, buffer);
      buffer := buffer + key;
      buffer := buffer + "=";
      buffer := buffer + m[key];
      buffer := buffer + ",";
      order := order + [key];
      remaining := remaining - {key};
    }
    s := TrimSuffix(buffer, ",");
    TrimTerminated(Pieces(m, order), ",");
    SelectorEmptyIff(m, order);
  }

  /** The selector string is empty exactly when the selector is nil or has no
      entries. */
  lemma SelectorEmptyIff(m: map<string, string>, order: seq<string>)
    requires IsEnumeration(order, m.Keys)
    ensures Join(Pieces(m, order), ",") == "" <==> |m| == 0
  {
    var ps := Pieces(m, order);
    forall i | 0 <= i < |ps| ensures ps[i] != "" {
      assert |ps[i]| == |order[i]| + 1 + |m[order[i]]|;
    }
    JoinEmptyIff(ps, ",");
    if |m| > 0 {
      var k :| k in m;
      assert k in order;
    } else {
      assert m.Keys == {};
    }
  }

  /** The selector has one piece per entry of the map, and the pieces are
      exactly the `key=value` pairs of the map, whatever the iteration order. */
  lemma SelectorPiecesAreEntries(m: map<string, string>, order: seq<string>)
    requires IsEnumeration(order, m.Keys)
    ensures |Pieces(m, order)| == |m|
    ensures forall k :: k in m ==> Piece(m, k) in Pieces(m, order)
    ensures forall p :: p in Pieces(m, order) ==> exists k :: k in m && p == Piece(m, k)
  {
    var ps := Pieces(m, order);
    forall k | k in m ensures Piece(m, k) in ps {
      assert k in order;
      var i :| 0 <= i < |order| && order[i] == k;
      assert ps[i] == Piece(m, k);
    }
    forall p | p in ps ensures exists k :: k in m && p == Piece(m, k) {
      var i :| 0 <= i < |ps| && ps[i] == p;
      assert order[i] in m && p == Piece(m, order[i]);
    }
  }

  /** A selector of two entries, such as `{app: a}` once the namespace key
      is added, serialises to its two pieces joined by a comma, in one order
      or the other. */
  lemma SelectorOfTwo(m: map<string, string>, order: seq<string>, a: string, b: string)
    requires a != b && m.Keys == {a, b} && IsEnumeration(order, m.Keys)
    ensures var s := Join(Pieces(m, order), ",");
      s == Piece(m, a) + "," + Piece(m, b) || s == Piece(m, b) + "," + Piece(m, a)
  {
    assert a in order && b in order;
    var ps := Pieces(m, order);
    assert Join(ps, ",") == ps[0] + "," + ps[1] by {
      assert ps[..1] == [ps[0]];
    }
    var i :| 0 <= i < 2 && order[i] == a;
    var j :| 0 <= j < 2 && order[j] == b;
    assert ps[i] == Piece(m, a) && ps[j] == Piece(m, b);
  }

  /** The lookup of a namespace by name failed, so `add` gives up before
      building its event. */
  predicate LookupFails(namespace: string, lookup: string -> Result<Namespace>) {
    namespace != SystemNamespace && lookup(namespace).Err?
  }

  /** The service as `add` leaves it: a selector, when there is one, gains
      the namespace key (overwriting any value it had) set to the service's
      own namespace. */
  function WithNamespaceKey(svc: Service): Service {
    if svc.selector.None? then svc
    else svc.(selector := Some(svc.selector.value[PodNamespaceKey := svc.meta.namespace]))
  }

  /** An external service event describes `svc`: addressed by its UID, with
      its name, Rancher uuid and VIP, and the service itself, as `add` left
      it, as the template. */
  predicate Carries(ev: ExternalServiceEvent, svc: Service) {
    ev.externalId == svc.meta.uid &&
    ev.service.kind == KubernetesServiceKind &&
    ev.service.name == svc.meta.name &&
    ev.service.externalId == svc.meta.uid &&
    ev.service.template == Some(WithNamespaceKey(svc)) &&
    ev.service.uuid == LabelOr(svc.meta.labels, RancherUuidLabel) &&
    ev.service.vip == Vip(svc.clusterIP)
  }

  /** `serviceHandler.add`: translate an added (`eventType` "Added") or
      modified service into an external service event and publish it.
      `lookup` is the cluster's namespace API and `reply` the publisher's
      answer. Returns what was sent and the error returned, the service
      object as left after the in-place write into its selector, and (ghost)
      the order in which the selector map was visited. */
  method Add(svc: Service, eventType: string, lookup: string -> Result<Namespace>, reply: Option<string>)
    returns (o: Outcome, mutated: Service, ghost order: seq<string>)
    // the selector map gains (or overwrites) the namespace key, nothing else
    ensures mutated == WithNamespaceKey(svc)
    ensures mutated.meta == svc.meta && mutated.clusterIP == svc.clusterIP
    ensures mutated.selector.Some? <==> svc.selector.Some?
    ensures svc.selector.Some? ==>
      mutated.selector.value.Keys == svc.selector.value.Keys + {PodNamespaceKey} &&
      mutated.selector.value[PodNamespaceKey] == svc.meta.namespace &&
      forall k :: k in svc.selector.value && k != PodNamespaceKey ==> mutated.selector.value[k] == svc.selector.value[k]
    // a failed namespace lookup is returned and nothing is published
    ensures LookupFails(svc.meta.namespace, lookup) ==>
      o == Outcome([], Some(lookup(svc.meta.namespace).error))
    // otherwise exactly one event goes out and the publisher's reply is returned
    ensures !LookupFails(svc.meta.namespace, lookup) ==>
      |o.sent| == 1 && o.sent[0].ServiceEvent? && o.err == reply
    ensures !LookupFails(svc.meta.namespace, lookup) ==>
      var ev := o.sent[0].event;
      ev.externalId == svc.meta.uid &&
      (ev.eventType == "service.create" <==> eventType == "Added") &&
      (ev.eventType == "service.update" <==> eventType != "Added") &&
      ev.service.kind == KubernetesServiceKind &&
      ev.service.name == svc.meta.name &&
      ev.service.externalId == svc.meta.uid &&
      ev.service.template == Some(mutated) &&
      ev.service.uuid == LabelOr(svc.meta.labels, RancherUuidLabel) &&
      ev.service.vip == Vip(svc.clusterIP) &&
      (mutated.selector.None? ==> ev.service.selectorContainer == "") &&
      (mutated.selector.Some? ==>
        IsEnumeration(order, mutated.selector.value.Keys) &&
        ev.service.selectorContainer == Join(Pieces(mutated.selector.value, order), ","))
    // environment addressing: kube-system is addressed directly, any other
    // namespace through the looked-up namespace object
    ensures !LookupFails(svc.meta.namespace, lookup) && svc.meta.namespace == SystemNamespace ==>
      o.sent[0].event.environment ==
        EnvMap(map["name" := SystemNamespace, "externalId" := ExternalIdPrefix + SystemNamespace])
    ensures !LookupFails(svc.meta.namespace, lookup) && svc.meta.namespace != SystemNamespace ==>
      var ns := lookup(svc.meta.namespace).value;
      o.sent[0].event.environment ==
        EnvMap(map["name" := ns.meta.name, "externalId" := ExternalIdPrefix + ns.meta.uid,
                   "uuid" := LabelOr(ns.meta.labels, RancherUuidLabel)])
  {
    var meta := svc.meta;
    var selectorMap := svc.selector;
    var eventType' := if eventType == "Added" then "service.create" else "service.update";

    if selectorMap.Some? {
      selectorMap := Some(selectorMap.value[PodNamespaceKey := meta.namespace]);
    }
    mutated := svc.(selector := selectorMap);

    var selector;
    selector, order := SerializeSelector(selectorMap);

    var service := RancherService(
      KubernetesServiceKind, meta.name, meta.uid, selector, Some(mutated),
      LabelOr(meta.labels, RancherUuidLabel), Vip(svc.clusterIP));

    var env: map<string, string> := map[];
    if meta.namespace == SystemNamespace {
      env := env["name" := meta.namespace];
      env := env["externalId" := ExternalIdPrefix + meta.namespace];
    } else {
      var found := lookup(meta.namespace);
      if found.Err? {
        return Outcome([], Some(found.error)), mutated, order;
      }
      var namespace := found.value;
      env := env["name" := namespace.meta.name];
      env := env["externalId" := ExternalIdPrefix + namespace.meta.uid];
      env := env["uuid" := LabelOr(namespace.meta.labels, RancherUuidLabel)];
    }
    var event := ExternalServiceEvent(meta.uid, eventType', service, EnvMap(env));
    o := Send(ServiceEvent(event), reply);
  }

  /** `serviceHandler.delete`: publish a `service.remove` event addressed by
      the service's UID, with a service descriptor holding only its kind and
      no environment; no namespace is looked up. */
  function Delete(svc: Service, reply: Option<string>): (o: Outcome)
    ensures |o.sent| == 1 && o.sent[0].ServiceEvent? && o.err == reply
    ensures o.sent[0].event.externalId == svc.meta.uid
    ensures o.sent[0].event.eventType == "service.remove"
    ensures o.sent[0].event.service == KindOnly(KubernetesServiceKind)
    ensures o.sent[0].event.environment.NoEnvironment?
  {
    Send(ServiceEvent(ExternalServiceEvent(svc.meta.uid, "service.remove", KindOnly(KubernetesServiceKind), NoEnvironment)), reply)
  }

  /** The informer callbacks of `startServiceWatch`: AddFunc calls `add` with
      "Added", UpdateFunc calls `add` with "Modified" and the new object,
      DeleteFunc calls `delete`. The error is only logged, so the callback's
      effect is the records it sent. Each change kind maps to exactly one
      event type. */
  method OnChange(change: Change<Service>, lookup: string -> Result<Namespace>, reply: Option<string>)
    returns (sent: seq<Record>)
    ensures |sent| <= 1
    ensures change.Added? ==>
      (|sent| == 1 <==> !LookupFails(change.obj.meta.namespace, lookup)) &&
      (|sent| == 1 ==> sent[0].ServiceEvent? && sent[0].event.eventType == "service.create" &&
                       Carries(sent[0].event, change.obj))
    ensures change.Modified? ==>
      (|sent| == 1 <==> !LookupFails(change.newObj.meta.namespace, lookup)) &&
      (|sent| == 1 ==> sent[0].ServiceEvent? && sent[0].event.eventType == "service.update" &&
                       Carries(sent[0].event, change.newObj))
    ensures change.Deleted? ==>
      |sent| == 1 && sent[0].ServiceEvent? && sent[0].event.eventType == "service.remove" &&
      sent[0].event.externalId == change.obj.meta.uid &&
      sent[0].event.service == KindOnly(KubernetesServiceKind)
  {
    var o: Outcome;
    var mutated: Service;
    ghost var order: seq<string>;
    match change {
      case Added(obj) =>
        o, mutated, order := Add(obj, "Added", lookup, reply);
      case Modified(_, newObj) =>
        o, mutated, order := Add(newObj, "Modified", lookup, reply);
      case Deleted(obj) =>
        o := Delete(obj, reply);
    }
    sent := o.sent;
  }
}
