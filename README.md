# kubernetes-agent: host reconciler and watch-event translators in Dafny

This project models the two parts of Rancher's `kubernetes-agent` that hold
logic of their own.

**The host lifecycle reconciler** (`hostwatch/status_syncer.go`) reads the
Rancher host list and acts on the Kubernetes node of each host:

- an activating host is uncordoned;
- a deactivating host is cordoned;
- an evacuating host is drained with `kubectl drain`, once, and then marked
  with the label `io.rancher.host.state=evacuated`.

**The watch-event translators** (`watchevents/services.go`, `namespaces.go`,
`generic.go`) turn Kubernetes change notifications into records sent to
Rancher:

- service create, update and remove events;
- namespace `stack.remove` events;
- the generic `{type, object}` publish envelope with its resource-kind table.

Modules:

- `Wrappers`: `Option` and `Result`.
- `Kube`: the Kubernetes object shapes the agent reads. A watch
  notification is `Change<T>` (added, modified with old and new object,
  deleted).
- `Rancher`: the records sent to Rancher. A handler's effect is an
  `Outcome`: the records handed to the publisher, and the error returned.
  The publisher's reply is an input.
- `Text`: ASCII case folding, joining with a separator, `strings.TrimSuffix`.
- `ServiceWatch`, `NamespaceWatch`, `GenericWatch`: the three translators.
  - `add` is a method, because the source writes into the selector map in
    place, builds the selector string in a buffer loop, and fills the
    environment map branch by branch.
  - `GenericHandler` is a class whose `Start` fills its array of watch
    handles in a loop.
- `NodeApi`: the outside world of the reconciler.
  - A `ClusterApi` object holds the node store (host name to node) and a
    log of every call made, each with what it saw: the node a fetch
    returned, whether a replace was accepted.
  - An `Oracle` decides whether a call fails, what `kubectl` prints, and
    how the rest of the cluster changes the store before each call (its
    `drift`). Other controllers and clients write nodes, and `kubectl drain`
    cordons the node it drains; all of these appear as drift. The oracle is
    indexed by the call's position in the log, so any mix of transient
    errors and concurrent changes can be stated.
  - `KeepsNames` says the other writers keep every node under its own
    name. `OnlyCordons` says they add and remove no node and at most cordon
    a node: they never uncordon it or change its name or labels. This holds
    when the drain command is the only other writer.
- `StatusSyncer`: the reconciler.
  - The methods `CordonUncordon`, `Drain` and `StatusSync` update a
    `ClusterApi` with loops shaped like the source.
  - Each method is proved equal to a function on `Cluster` values
    (`CordonFrom` built from one `Attempt` per retry, `DrainSpec` ending in
    `MarkDrained`, `StatusSyncSpec`).
  - The lemmas state attempt bounds, idempotence and what is written. A
    write is stated in terms of the node returned by the fetch just before
    it, because other writers may change the node between calls.

## Model

| member | source | states |
|---|---|---|
| StatusSyncer.DrainArgs | hostwatch/status_syncer.go:95-103 | the drain command has seven arguments, the host name second and the 120s timeout last |
| StatusSyncer.CordonUncordon | hostwatch/status_syncer.go:41-66 | the retry loop leaves the store, the call log and `changed` exactly as `CordonFrom` from attempt 0 says |
| StatusSyncer.AttemptLog | hostwatch/status_syncer.go:44-61 | one attempt is a fetch, then a write exactly when the fetched node was not yet in the desired state, of that node cordoned or uncordoned; it succeeds iff the write is accepted, or with no write iff the fetch worked |
| StatusSyncer.AttemptStore | hostwatch/status_syncer.go:49-61 | after a successful attempt the host's node is stored as fetched, with the desired schedulability and without the drain label if it had to be written |
| StatusSyncer.CordonFetchBound | hostwatch/status_syncer.go:43-48 | a cordon or uncordon fetches the node at least once and at most `maxRetryCount + 1` = 4 times |
| StatusSyncer.CordonExhausted | hostwatch/status_syncer.go:63-65 | when no attempt succeeds, all 4 fetches were made and no write took effect |
| StatusSyncer.CordonAlreadyDesired | hostwatch/status_syncer.go:49-52 | when the first fetch returns the node already in the desired state, that fetch is the only call and the result is success |
| StatusSyncer.CordonAlreadyCordoned | hostwatch/status_syncer.go:43-52 | cordoning a node that is already cordoned, while the other writers at most cordon, never attempts a replace |
| StatusSyncer.CordonWritesFresh | hostwatch/status_syncer.go:44-55 | every write comes straight after a successful fetch and is that fetched node, not yet in the desired state, given the desired schedulability and stripped of the drain label |
| StatusSyncer.CordonEffect | hostwatch/status_syncer.go:53-61 | at most one write takes effect, only when the result is success, and it is the last call, so the node stays stored as written; after a success the stored node has the desired schedulability |
| StatusSyncer.CordonCallsConcernHost | hostwatch/status_syncer.go:43-61 | a cordon only appends fetches and writes of the host's own node to the log, runs no command, and keeps each node under its own name |
| StatusSyncer.CordonNoFaults | hostwatch/status_syncer.go:43-61 | when the API server answers, one attempt succeeds and leaves the node as the fetch returned it, cordoned or uncordoned only if its schedulability differed |
| StatusSyncer.DrainError | hostwatch/status_syncer.go:105-112 | the output is a success iff the exit code is not positive and there is no execution error; a positive exit code reports stderr, otherwise the execution error is reported |
| StatusSyncer.ExecDrainCmd | hostwatch/status_syncer.go:94-113 | runs `kubectl` with the drain arguments, exactly one call, and returns the classification of its output |
| StatusSyncer.Drain | hostwatch/status_syncer.go:68-92 | the drain leaves the store and the call log exactly as `DrainSpec` says |
| StatusSyncer.DrainGuard | hostwatch/status_syncer.go:69-74 | a node whose fetch fails, or that comes back labelled evacuated, gets that one fetch and nothing else |
| StatusSyncer.DrainLog | hostwatch/status_syncer.go:68-92 | the calls of one drain in order: the fetch; the command iff the fetched node was not labelled; a re-fetch iff the command succeeded; a write iff the re-fetch worked, of the re-fetched node labelled; an accepted write leaves the node stored as written |
| StatusSyncer.MarkDrainedLog | hostwatch/status_syncer.go:80-90 | marking is a re-fetch, then a write iff it worked, of the re-fetched node with the drain label set |
| StatusSyncer.MarkDrainedLabels | hostwatch/status_syncer.go:80-90 | with no faults and other writers that at most cordon, marking leaves the node labelled and no less cordoned, and runs no command |
| StatusSyncer.DrainCounts | hostwatch/status_syncer.go:74-90 | the command runs exactly when the first fetch returned an unlabelled node; at most one replace, only after the command succeeded and the re-fetch worked; after an accepted write the stored node is labelled |
| StatusSyncer.DrainEffect | hostwatch/status_syncer.go:80-90 | every call concerns the host; a write comes two calls after the drain command, whose output was a success, and is the copy re-fetched just before it with the drain label set |
| StatusSyncer.DrainOnce | hostwatch/status_syncer.go:74-91 | draining an unlabelled node with no faults and a successful command runs the command once and leaves the node labelled and no less cordoned |
| StatusSyncer.DrainTwice | hostwatch/status_syncer.go:74-91 | two drains run the command exactly once and label the node; the second drain is a single fetch |
| StatusSyncer.HostAction | hostwatch/status_syncer.go:30-37 | a host in a state the reconciler acts on costs at least one call, any other host none; calls are only appended |
| StatusSyncer.StatusSync | hostwatch/status_syncer.go:22-39 | the loop over hosts leaves the store and log exactly as `StatusSyncSpec` says: each host dispatched by state, in list order |
| StatusSyncer.SyncReadFailure | hostwatch/status_syncer.go:23-27 | an unreadable host list causes no call and no change |
| StatusSyncer.SyncAppend | hostwatch/status_syncer.go:28-38 | syncing a list is syncing its first part and then the rest from the resulting state, so hosts are handled in order and none stops the next |
| StatusSyncer.SyncIgnoresOtherStates | hostwatch/status_syncer.go:30-37 | hosts in any other state cause no call at all |
| StatusSyncer.HostActionKeepsStore | hostwatch/status_syncer.go:30-37 | when the other writers keep names, every host action keeps each node stored under its own name |
| StatusSyncer.SyncKeepsStore | hostwatch/status_syncer.go:28-38 | when the other writers keep names, a whole sync keeps each node stored under its own name |
| StatusSyncer.CordonScenario | hostwatch/status_syncer.go:31-34 | for a node never drained, activating leaves it schedulable and deactivating then makes it unschedulable, neither leaving the drain label |
| StatusSyncer.HostLifecycleScenario | hostwatch/status_syncer.go:28-37 | a host going activating, deactivating, evacuating, evacuating ends cordoned and labelled, with the drain command run exactly once; the second evacuation is one fetch that finds the node as the first left it |
| NodeApi.ClusterApi.constructor | kubernetesclient/node_client.go:13-17 | a fresh client over a node store with an empty call log |
| NodeApi.ClusterApi.ByName | kubernetesclient/node_client.go:23-26 | after the other writers' changes, a fetch logs one call with what it returned: the stored node, unless the oracle faults or the name is unknown |
| NodeApi.ClusterApi.ReplaceNode | kubernetesclient/node_client.go:28-31 | after the other writers' changes, a replace logs one call and stores the node under its name unless the oracle faults or the node is unknown |
| NodeApi.ClusterApi.Execute | hostwatch/status_syncer.go:104 | after the other writers' changes, running a command logs one call and returns the oracle's output for it |
| Text.EqualFold | watchevents/services.go:108 | two strings match iff they are equal once both are lower-cased, so equal strings always match |
| ServiceWatch.LabelOr | watchevents/services.go:106 | the label's value, or "" when the label is absent |
| ServiceWatch.Vip | watchevents/services.go:107-110 | the VIP is empty iff the cluster IP is empty or a case-insensitive "None", and otherwise is the cluster IP verbatim |
| ServiceWatch.SerializeSelector | watchevents/services.go:93-101 | the buffer loop visits every key once in some order and yields the `key=value` pieces joined by commas with no trailing comma; the result is empty iff the selector is nil or has no entries |
| ServiceWatch.SelectorEmptyIff | watchevents/services.go:93-101 | the selector string is empty iff the map has no entries |
| ServiceWatch.SelectorPiecesAreEntries | watchevents/services.go:94-99 | one piece per entry, and the pieces are exactly the map's `key=value` pairs, whatever the order |
| ServiceWatch.SelectorOfTwo | watchevents/services.go:93-101 | a two-entry selector serialises to its two pieces joined by a comma, in either order |
| ServiceWatch.Add | watchevents/services.go:74-140 | the selector gains the namespace key in place and nothing else changes (the service left is `WithNamespaceKey` of the one given); the event's type, ids, uuid, VIP, selector string and template; the environment for kube-system and for a looked-up namespace; a failed lookup returns its error and publishes nothing; otherwise one event, returning the publisher's reply |
| ServiceWatch.Delete | watchevents/services.go:142-157 | one `service.remove` event addressed by the raw UID, a kind-only service, no environment, returning the publisher's reply |
| ServiceWatch.OnChange | watchevents/services.go:40-65 | added yields `service.create` of the added object, modified yields `service.update` of the new object (its UID, name, uuid and VIP, and the object itself with the namespace key as template), deleted yields a kind-only `service.remove`; an add or update sends one event iff the namespace lookup works |
| Text.TrimSuffix | watchevents/services.go:101 | the suffix is removed once when present, otherwise the string is unchanged |
| Text.TerminatedIsJoinPlusSep | watchevents/services.go:93-100 | a buffer of comma-terminated pieces is the joined pieces plus one comma |
| Text.TrimTerminated | watchevents/services.go:100-101 | trimming the trailing separator from that buffer gives exactly the joined pieces, the empty list included |
| Text.JoinEmptyIff | watchevents/services.go:93-101 | joined non-empty pieces are empty iff there are no pieces |
| Rancher.KindOnly | watchevents/services.go:150-152 | a service descriptor with only its kind set, every other field empty |
| Rancher.Send | watchevents/services.go:138-139 | a publish hands over exactly one record and returns the publisher's reply as the error |
| NamespaceWatch.Delete | watchevents/namespaces.go:61-84 | one event addressed by `kubernetes://` and the UID; type `stack.remove` iff the argument is "Deleted", else empty; environment a stack of kind "environment"; kind-only service; the publisher's reply returned |
| NamespaceWatch.OnChange | watchevents/namespaces.go:35-52 | added and modified namespaces send nothing; a deleted one sends one `stack.remove` for its UID |
| NamespaceWatch.RemoveAddressesDiffer | watchevents/namespaces.go:73 | a namespace and a service with the same UID are removed under different external ids |
| GenericWatch.RuntimeObject | watchevents/generic.go:91-121 | the group returned always belongs to the type returned, and a type other than a pod is returned only for its own resource name |
| GenericWatch.RuntimeObjectRoundTrip | watchevents/generic.go:91-121 | every object type is found under its own resource name, with its own API group |
| GenericWatch.RuntimeObjectFallback | watchevents/generic.go:118-120 | a name that is no type's resource name gets a pod on the core client |
| GenericWatch.DefaultKindsResolve | main.go:64-66 | the default kind "replicasets" falls back to pods on the core client; every other default kind gets its own type |
| GenericWatch.StartGenericWatch | watchevents/generic.go:34-36 | the watch keeps the requested resource name even when the type fell back |
| GenericWatch.RancherPatch | watchevents/generic.go:79-89 | one `service.kubernetes.change` record whose data holds exactly `type` and `object`, returning the publisher's reply |
| GenericWatch.OnChange | watchevents/generic.go:41-54 | added, modified and deleted are published as "ADDED", "MODIFIED" (with the new object) and "DELETED" |
| GenericWatch.OnChangeFaithful | watchevents/generic.go:41-54 | two changes that publish the same record are of the same kind and carry the same current object |
| GenericWatch.GenericHandler.constructor | watchevents/generic.go:26-32 | a new handler has no watch handles |
| GenericWatch.GenericHandler.Start | watchevents/generic.go:63-69 | a fresh array of `len(resNames)` handles, slot k holding the watch started for `resNames[k]` |

## Left out

- Informers, `controller.Run` goroutines and stop channels
  (`startServiceWatch`, `startNamespaceWatch`, `startGenericWatch`). Each
  callback is modelled as a direct call taking a `Change`. The `Start` and
  `Stop` of the service and namespace handlers and `genericHandler.Stop`
  only send on or store channels, so they are not modelled.
- The metadata client, the timer that calls `statusSync`, and two syncs
  overlapping in time. A sync is one sequential call, and the host list is
  its input.
- Host state names. The source's `ActivatingState`, `DeactivatingState` and
  `EvacuatingState` identifiers differ from those defined in
  `hostwatch/hostwatch.go`, so the states are an abstract enumeration.
- What `kubectl drain` does to the cluster is not computed. Its cordon
  shows up, like every other writer's change, as the oracle's drift before
  later calls; pod eviction is outside the model. Printing the command's
  standard output is also left out.
- Logging everywhere. A failed cordon, a failed drain and a handler error
  only reach the log in the source; the model returns or drops them as the
  source does.
- `StatusSyncer.CordonUncordon`: an exhausted cordon or uncordon is only
  logged (`hostwatch/status_syncer.go:63-65`), and nothing is returned to
  the caller. The model returns `changed` so that lemmas can speak of it.
  A cordon or uncordon also removes the drain label
  (`hostwatch/status_syncer.go:54`).
- `StatusSyncer.CordonExhausted` and `StatusSyncer.CordonEffect` promise no
  equation between the store before and after a cordon. Other writers may
  change the store between the calls, so the model promises what the agent
  wrote: nothing after an exhausted cordon, at most one write of the node
  fetched just before it (`StatusSyncer.CordonWritesFresh`).
- `StatusSyncer.DrainEffect` likewise promises what the drain wrote, not
  an equation between the stores before and after.
- `StatusSyncer.DrainTwice`, `StatusSyncer.DrainOnce`,
  `StatusSyncer.CordonScenario` and `StatusSyncer.HostLifecycleScenario`
  assume that the other writers at most cordon a node (`OnlyCordons`). The
  scenarios also assume that the node does not carry the drain label at
  the start. Without those assumptions another writer could undo or
  pre-empt the agent's work, and no end state can be promised.
- Write conflicts. A replace fails only when the oracle says so, whatever
  the other writers did since the node was fetched. The API server would
  reject such a stale copy on its resource version; the model may accept it
  and overwrite the other change. An oracle that fails exactly those
  replaces is one of the oracles the lemmas quantify over, so the server's
  behaviour is included; the lemmas that assume no call fails leave
  conflicts out.
- Nil versus empty label maps. The model does not tell them apart, so Go's
  panic when `drain` writes into a nil label map
  (`hostwatch/status_syncer.go:85`) is not represented.
- `Text.EqualFold` folds ASCII letters only. That is exact for comparing
  with "None", because none of n, o, e has a non-ASCII case partner.
- The `Data` payload of a service. It is `{"fields": {"template": svc}}`;
  the model keeps only the template, as `RancherService.template`.
- `ServiceWatch.SerializeSelector`: Go's map iteration order is left
  unspecified. The visiting order is a ghost result, and the contracts hold
  for every order.
- `ServiceWatch.Add`: the in-place write into the selector map is shared
  with the informer's cache in the source. The model returns the updated
  service rather than aliasing the cache's copy.
- The authorization setup, the other `kubernetesclient` wrappers and
  `main.go`'s flags apart from the default watch kinds. The namespace
  lookup and the publisher are inputs to the translators.
