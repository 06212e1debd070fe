/** The outside world the host reconciler acts on: the cluster's node API
    (get a node by name, replace a node) and the `kubectl` command line.
    The nodes are a store from host name to node; every call is logged with
    what it saw; whether a call fails, what a command prints, and what every
    other writer of the cluster did to the store before the call are decided
    by an oracle indexed by the call's position in the log. */
module NodeApi {
  import opened Wrappers

  /** The part of `v1.Node` the reconciler touches: `Spec.Unschedulable` and
      `ObjectMeta.Labels`, with the node's name. */
  datatype Node = Node(name: string, unschedulable: bool, labels: map<string, string>)

  /** What `cli.Execute` reports about a finished command. */
  datatype CmdOutput = CmdOutput(exitCode: int, err: Option<string>, stdOut: string, stdErr: string)

  /** One call made to the outside world, with what it saw: the node a get
      returned (`None` when it failed), whether a replace was accepted. */
  datatype Call =
    | GetCall(name: string, got: Option<Node>)
    | ReplaceCall(node: Node, ok: bool)
    | ExecCall(cmd: string, args: seq<string>)

  /** Call number i fails iff `fails(i)` (a transient error, a write
      conflict); a command run as call number i reports `output(i)`; and
      `drift(i)` is what the rest of the cluster did to the node store
      between the previous call and call number i: other controllers, other
      clients, and a command run by an earlier call (`kubectl drain`
      cordons the node it drains). */
  datatype Oracle = Oracle(
    fails: nat -> bool,
    output: nat -> CmdOutput,
    drift: nat -> map<string, Node> -> map<string, Node>)

  /** The node store and the log of every call made so far. */
  datatype Cluster = Cluster(nodes: map<string, Node>, calls: seq<Call>)

  /** The API server keeps each node under its own name. */
  ghost predicate ValidStore(nodes: map<string, Node>) {
    forall n :: n in nodes ==> nodes[n].name == n
  }

  /** The prefixes of the errors the node client reports. */
  const GetNodeError := "error getting node "
  const UpdateNodeError := "error updating node "

  /** The store as the next call finds it, once the rest of the cluster
      has had its turn. */
  function Current(c: Cluster, o: Oracle): map<string, Node> {
    o.drift(|c.calls|)(c.nodes)
  }

  /** `NodeOperations.ByName`: fails on an oracle fault or an unknown name,
      otherwise returns the node as currently stored. */
  function Get(c: Cluster, o: Oracle, name: string): (Cluster, Result<Node>) {
    var nodes := Current(c, o);
    var ok := !o.fails(|c.calls|) && name in nodes;
    (Cluster(nodes, c.calls + [GetCall(name, if ok then Some(nodes[name]) else None)]),
     if ok then Ok(nodes[name]) else Err(GetNodeError + name))
  }

  /** `NodeOperations.ReplaceNode`: fails on an oracle fault or an unknown
      node, otherwise stores the node as given, under its name. */
  function Replace(c: Cluster, o: Oracle, node: Node): (Cluster, Result<Node>) {
    var nodes := Current(c, o);
    var ok := !o.fails(|c.calls|) && node.name in nodes;
    (Cluster(if ok then nodes[node.name := node] else nodes, c.calls + [ReplaceCall(node, ok)]),
     if ok then Ok(node) else Err(UpdateNodeError + node.name))
  }

  /** `cli.Execute`: runs a command and reports its output; what the
      command does to the cluster shows in the drift before later calls. */
  function Run(c: Cluster, o: Oracle, cmd: string, args: seq<string>): (Cluster, CmdOutput) {
    (Cluster(Current(c, o), c.calls + [ExecCall(cmd, args)]), o.output(|c.calls|))
  }

  /** The other writers keep every node under its own name. */
  ghost predicate KeepsNames(o: Oracle) {
    forall i: nat, m: map<string, Node> :: ValidStore(m) ==> ValidStore(o.drift(i)(m))
  }

  /** A change another writer may make to one node while the host is being
      drained: it keeps the name and the labels and never uncordons. */
  predicate Cordoning(before: Node, after: Node) {
    after.name == before.name && after.labels == before.labels &&
    (before.unschedulable ==> after.unschedulable)
  }

  /** The only other writer is `kubectl drain` (or one like it): no node is
      added or removed, and a node is at most cordoned. */
  ghost predicate OnlyCordons(o: Oracle) {
    (forall i: nat, m: map<string, Node>, name {:trigger name in o.drift(i)(m)} ::
      name in o.drift(i)(m) <==> name in m) &&
    (forall i: nat, m: map<string, Node>, name {:trigger o.drift(i)(m)[name]} ::
      name in m ==> Cordoning(m[name], o.drift(i)(m)[name]))
  }

  /** Instantiates `OnlyCordons` for one call and one node. */
  lemma DriftCordons(o: Oracle, i: nat, m: map<string, Node>, name: string)
    requires OnlyCordons(o) && name in m
    ensures name in o.drift(i)(m) && Cordoning(m[name], o.drift(i)(m)[name])
  {
  }

  /** A writer that only cordons keeps every node under its own name. */
  lemma OnlyCordonsKeepsNames(o: Oracle)
    requires OnlyCordons(o)
    ensures KeepsNames(o)
  {
    forall i: nat, m: map<string, Node> | ValidStore(m)
      ensures ValidStore(o.drift(i)(m))
    {
      forall n | n in o.drift(i)(m)
        ensures o.drift(i)(m)[n].name == n
      {
        DriftCordons(o, i, m, n);
      }
    }
  }

  /** The number of calls in `calls` satisfying `p`. */
  function Count(calls: seq<Call>, p: Call -> bool): nat
    decreases |calls|
  {
    if |calls| == 0 then 0
    else Count(calls[..|calls| - 1], p) + (if p(calls[|calls| - 1]) then 1 else 0)
  }

  predicate IsGet(call: Call) { call.GetCall? }
  predicate IsReplace(call: Call) { call.ReplaceCall? }
  /** A replace the API server accepted: a write that took effect. */
  predicate IsWrite(call: Call) { call.ReplaceCall? && call.ok }
  predicate IsExec(call: Call) { call.ExecCall? }

  /** A log of one call counts that call alone. */
  lemma CountOne(call: Call, p: Call -> bool)
    ensures Count([call], p) == if p(call) then 1 else 0
  {
    assert [call][..0] == [];
  }

  /** Appending one call adds one to the count exactly when it matches. */
  lemma CountSnoc(calls: seq<Call>, call: Call, p: Call -> bool)
    ensures Count(calls + [call], p) == Count(calls, p) + if p(call) then 1 else 0
  {
    assert (calls + [call])[..|calls|] == calls;
  }

  /** Counting distributes over concatenation of logs. */
  lemma {:induction false} CountAppend(a: seq<Call>, b: seq<Call>, p: Call -> bool)
    ensures Count(a + b, p) == Count(a, p) + Count(b, p)
    decreases |b|
  {
    if |b| > 0 {
      var b' := b[..|b| - 1];
      assert (a + b)[..|a + b| - 1] == a + b';
      CountAppend(a, b', p);
    } else {
      assert a + b == a;
    }
  }

  /** The cluster as the agent's client sees it: the node store and the
      log change with every call, the store also by the other writers. */
  class ClusterApi {
    var nodes: map<string, Node>
    var calls: seq<Call>
    const oracle: Oracle

    function State(): Cluster
      reads this
    {
      Cluster(nodes, calls)
    }

    constructor (nodes: map<string, Node>, oracle: Oracle)
      ensures State() == Cluster(nodes, []) && this.oracle == oracle
    {
      this.nodes := nodes;
      this.calls := [];
      this.oracle := oracle;
    }

    method ByName(name: string) returns (r: Result<Node>)
      modifies this
      ensures (State(), r) == Get(old(State()), oracle, name)
    {
      nodes := oracle.drift(|calls|)(nodes);
      var ok := !oracle.fails(|calls|) && name in nodes;
      r := if ok then Ok(nodes[name]) else Err(GetNodeError + name);
      calls := calls + [GetCall(name, if ok then Some(nodes[name]) else None)];
    }

    method ReplaceNode(node: Node) returns (r: Result<Node>)
      modifies this
      ensures (State(), r) == Replace(old(State()), oracle, node)
    {
      nodes := oracle.drift(|calls|)(nodes);
      var ok := !oracle.fails(|calls|) && node.name in nodes;
      if ok {
        nodes := nodes[node.name := node];
        r := Ok(node);
      } else {
        r := Err(UpdateNodeError + node.name);
      }
      calls := calls + [ReplaceCall(node, ok)];
    }

    method Execute(cmd: string, args: seq<string>) returns (output: CmdOutput)
      modifies this
      ensures (State(), output) == Run(old(State()), oracle, cmd, args)
    {
      nodes := oracle.drift(|calls|)(nodes);
      output := oracle.output(|calls|);
      calls := calls + [ExecCall(cmd, args)];
    }
  }
}
