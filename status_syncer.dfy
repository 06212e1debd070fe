/** The host lifecycle reconciler (`hostwatch/status_syncer.go`): for every
    host in Rancher's host list it cordons, uncordons or drains the
    Kubernetes node of the same name, according to the host's state. */
module StatusSyncer {
  import opened Wrappers
  import opened NodeApi

  /** Retries after the first attempt of a cordon or uncordon. */
  const MaxRetryCount := 3
  /** The label that records a completed drain, and its value. */
  const DrainLabelName := "io.rancher.host.state"
  const DrainLabelValue := "evacuated"
  const DrainSyncTimeout := "120s"
  const Kubectl := "kubectl"

  /** The arguments of the `kubectl` drain command for a host: ignore
      daemon-set pods, force the eviction of unmanaged pods, allow the loss of
      local data, give up after the drain timeout. */
  function DrainArgs(hostname: string): (args: seq<string>)
    ensures |args| == 7 && args[1] == hostname && args[6] == DrainSyncTimeout
  {
    ["drain", hostname, "--ignore-daemonsets", "--force", "--delete-local-data", "--timeout", DrainSyncTimeout]
  }

  /** The states of a Rancher host that the reconciler acts on; every other
      state is `OtherState`. */
  datatype HostState = Activating | Deactivating | Evacuating | OtherState

  /** A host of the Rancher metadata host list. */
  datatype Host = Host(hostname: string, state: HostState)

  /** The node as a cordon or uncordon writes it back: the desired
      schedulability, the drain label removed, everything else as fetched. */
  function Cordoned(node: Node, desired: bool): Node {
    node.(unschedulable := desired, labels := node.labels - {DrainLabelName})
  }

  /** The node carries the drain-completed label. */
  predicate Evacuated(node: Node) {
    DrainLabelName in node.labels && node.labels[DrainLabelName] == DrainLabelValue
  }

  /** The node as a completed drain writes it back: the drain label set,
      everything else as fetched. */
  function Labelled(node: Node): Node {
    node.(labels := node.labels[DrainLabelName := DrainLabelValue])
  }

  /** `r` extends the calls already made in `c`. */
  ghost predicate Extends(c: Cluster, r: Cluster) {
    |c.calls| <= |r.calls| && r.calls[..|c.calls|] == c.calls
  }

  /** The calls made going from `c` to `r`. */
  ghost function Since(c: Cluster, r: Cluster): seq<Call>
    requires Extends(c, r)
  {
    r.calls[|c.calls|..]
  }

  /** A call addressed to host `host`: a get or replace of its node, or the
      drain command for it. */
  ghost predicate Concerns(call: Call, host: string) {
    match call
    case GetCall(name, _) => name == host
    case ReplaceCall(node, _) => node.name == host
    case ExecCall(cmd, args) => cmd == Kubectl && args == DrainArgs(host)
  }

  /** The calls from `c` to `r` through `m` are those up to `m`, then the rest. */
  lemma SinceTrans(c: Cluster, m: Cluster, r: Cluster)
    requires Extends(c, m) && Extends(m, r)
    ensures Extends(c, r) && Since(c, r) == Since(c, m) + Since(m, r)
  {
    assert r.calls[..|c.calls|] == r.calls[..|m.calls|][..|c.calls|];
  }

  /** One call from `c` to `c1`, then on to `r`. */
  lemma SinceStep(c: Cluster, c1: Cluster, r: Cluster, call: Call, p: Call -> bool)
    requires c1.calls == c.calls + [call] && Extends(c1, r)
    ensures Extends(c, r) && Since(c, r) == [call] + Since(c1, r)
    ensures Count(Since(c, r), p) == (if p(call) then 1 else 0) + Count(Since(c1, r), p)
  {
    CountOne(call, p);
    assert r.calls[..|c.calls|] == c1.calls[..|c.calls|];
    assert r.calls[|c.calls|..] == [call] + r.calls[|c1.calls|..];
    CountAppend([call], Since(c1, r), p);
  }

  // ---------------------------------------------------------------------
  // Cordon and uncordon

  /** One attempt of `cordonUncordon`: fetch the node; if that fails, the
      attempt failed; if the node already has the desired schedulability,
      it succeeded; otherwise write it back cordoned or uncordoned, and the
      attempt succeeded iff the write did. */
  function Attempt(c: Cluster, o: Oracle, host: string, desired: bool): (Cluster, bool) {
    var (c1, got) := Get(c, o, host);
    if got.Err? then (c1, false)
    else if got.value.unschedulable == desired then (c1, true)
    else
      var (c2, put) := Replace(c1, o, Cordoned(got.value, desired));
      (c2, put.Ok?)
  }

  /** The effect of `cordonUncordon` from attempt number `retryCount` on:
      attempt after attempt until one succeeds or the attempts run out. The
      boolean is the source's `changed`. */
  function CordonFrom(c: Cluster, o: Oracle, host: string, desired: bool, retryCount: nat): (Cluster, bool)
    decreases MaxRetryCount + 1 - retryCount
  {
    if retryCount > MaxRetryCount then (c, false)
    else
      var (c1, done) := Attempt(c, o, host, desired);
      if done then (c1, true) else CordonFrom(c1, o, host, desired, retryCount + 1)
  }

  /** `cordonUncordon`: up to `MaxRetryCount + 1` read-modify-write attempts
      to give the node of `hostname` the schedulability `unschedulable`.
      Returns whether it succeeded; a failure is only logged by the source. */
  method CordonUncordon(api: ClusterApi, hostname: string, unschedulable: bool) returns (changed: bool)
    modifies api
    ensures (api.State(), changed) == CordonFrom(old(api.State()), api.oracle, hostname, unschedulable, 0)
  {
    ghost var start := api.State();
    changed := false;
    for retryCount := 0 to MaxRetryCount + 1
      invariant CordonFrom(start, api.oracle, hostname, unschedulable, 0)
             == CordonFrom(api.State(), api.oracle, hostname, unschedulable, retryCount)
    {
      var node := api.ByName(hostname);
      if node.Err? {
        continue;
      }
      if node.value.unschedulable == unschedulable {
        changed := true;
        break;
      }
      var updated := node.value.(unschedulable := unschedulable);
      updated := updated.(labels := updated.labels - {DrainLabelName});
      var written := api.ReplaceNode(updated);
      if written.Err? {
        continue;
      }
      changed := true;
      break;
    }
  }

  /** The calls of one attempt: the fetch, then a write exactly when the
      fetch returned a node not yet in the desired state, of that node
      cordoned or uncordoned; the attempt succeeds iff that write is
      accepted, or, with no write, iff the fetch succeeded. An attempt that
      writes nothing is just the fetch. */
  lemma AttemptLog(c: Cluster, o: Oracle, host: string, desired: bool)
    ensures Extends(c, Attempt(c, o, host, desired).0)
    ensures var (r, done) := Attempt(c, o, host, desired);
      var log := Since(c, r);
      var first := Get(c, o, host).1;
      var stale := first.Ok? && first.value.unschedulable != desired;
      |log| == (if stale then 2 else 1) &&
      log[0] == GetCall(host, if first.Ok? then Some(first.value) else None) &&
      (stale ==> log[1] == ReplaceCall(Cordoned(first.value, desired), done)) &&
      (!stale ==> r == Get(c, o, host).0 && done == first.Ok?)
  {
    var (c1, got) := Get(c, o, host);
    if got.Ok? && got.value.unschedulable != desired {
      var (c2, put) := Replace(c1, o, Cordoned(got.value, desired));
      assert Since(c, c2) == [GetCall(host, Some(got.value)), ReplaceCall(Cordoned(got.value, desired), put.Ok?)];
    } else {
      assert Since(c, c1) == [GetCall(host, if got.Ok? then Some(got.value) else None)];
    }
  }

  /** The store after one attempt keeps every node under its own name, and
      after a successful attempt holds the host's node as fetched, cordoned
      or uncordoned if it had to be. */
  lemma AttemptStore(c: Cluster, o: Oracle, host: string, desired: bool)
    requires ValidStore(c.nodes) && KeepsNames(o)
    ensures ValidStore(Attempt(c, o, host, desired).0.nodes)
    ensures var first := Get(c, o, host).1;
      first.Ok? ==> first.value.name == host
    ensures var (r, done) := Attempt(c, o, host, desired);
      var first := Get(c, o, host).1;
      done ==> (first.Ok? && host in r.nodes &&
        r.nodes[host] == if first.value.unschedulable == desired then first.value else Cordoned(first.value, desired))
  {
    var (c1, got) := Get(c, o, host);
    assert ValidStore(c1.nodes);
    if got.Ok? && got.value.unschedulable != desired {
      var (c2, put) := Replace(c1, o, Cordoned(got.value, desired));
      assert ValidStore(Current(c1, o));
    }
  }

  /** Every call of `log` is a fetch or write of the node of `host`. */
  ghost predicate NodeCallsOnly(log: seq<Call>, host: string) {
    forall i :: 0 <= i < |log| ==> Concerns(log[i], host) && !IsExec(log[i])
  }

  lemma NodeCallsAppend(a: seq<Call>, b: seq<Call>, host: string)
    requires NodeCallsOnly(a, host) && NodeCallsOnly(b, host)
    ensures NodeCallsOnly(a + b, host)
  {
    forall i | |a| <= i < |a + b|
      ensures (a + b)[i] == b[i - |a|]
    {
    }
  }

  /** Every write in `log` comes straight after a successful fetch, is the
      fetched node with the desired schedulability and without the drain
      label, and is made only when the fetched node was not yet in the
      desired state. */
  ghost predicate FreshCordons(log: seq<Call>, desired: bool) {
    forall i :: 0 <= i < |log| && log[i].ReplaceCall? ==>
      0 < i && log[i - 1].GetCall? && log[i - 1].got.Some? &&
      log[i - 1].got.value.unschedulable != desired &&
      log[i].node == Cordoned(log[i - 1].got.value, desired)
  }

  lemma FreshCordonsAppend(a: seq<Call>, b: seq<Call>, desired: bool)
    requires FreshCordons(a, desired) && FreshCordons(b, desired)
    ensures FreshCordons(a + b, desired)
  {
    forall i | |a| <= i < |a + b| && (a + b)[i].ReplaceCall?
      ensures 0 < i - |a| && (a + b)[i - 1] == b[i - |a| - 1]
    {
      assert (a + b)[i] == b[i - |a|];
    }
  }

  /** A cordon or uncordon only appends to the log, and every call it makes
      concerns the host: no other node is fetched or written and no command
      is run; the store keeps every node under its own name. */
  lemma {:induction false} CordonCallsConcernHost(c: Cluster, o: Oracle, host: string, desired: bool, k: nat)
    requires ValidStore(c.nodes) && KeepsNames(o)
    ensures Extends(c, CordonFrom(c, o, host, desired, k).0)
    ensures NodeCallsOnly(Since(c, CordonFrom(c, o, host, desired, k).0), host)
    ensures ValidStore(CordonFrom(c, o, host, desired, k).0.nodes)
    decreases MaxRetryCount + 1 - k
  {
    var r := CordonFrom(c, o, host, desired, k).0;
    if k <= MaxRetryCount {
      AttemptLog(c, o, host, desired);
      AttemptStore(c, o, host, desired);
      var (c1, done) := Attempt(c, o, host, desired);
      assert NodeCallsOnly(Since(c, c1), host);
      if !done {
        CordonCallsConcernHost(c1, o, host, desired, k + 1);
        SinceTrans(c, c1, r);
        NodeCallsAppend(Since(c, c1), Since(c1, r), host);
      }
    } else {
      assert Since(c, r) == [];
    }
  }

  /** Read-modify-write: whatever the other writers do between the calls,
      every node a cordon or uncordon writes is the copy it fetched just
      before, changed only in schedulability and the drain label. */
  lemma {:induction false} CordonWritesFresh(c: Cluster, o: Oracle, host: string, desired: bool, k: nat)
    ensures Extends(c, CordonFrom(c, o, host, desired, k).0)
    ensures FreshCordons(Since(c, CordonFrom(c, o, host, desired, k).0), desired)
    decreases MaxRetryCount + 1 - k
  {
    var r := CordonFrom(c, o, host, desired, k).0;
    if k <= MaxRetryCount {
      AttemptLog(c, o, host, desired);
      var (c1, done) := Attempt(c, o, host, desired);
      assert FreshCordons(Since(c, c1), desired);
      if !done {
        CordonWritesFresh(c1, o, host, desired, k + 1);
        SinceTrans(c, c1, r);
        FreshCordonsAppend(Since(c, c1), Since(c1, r), desired);
      }
    } else {
      assert Since(c, r) == [];
    }
  }

  /** Attempt bound: at least one and at most `MaxRetryCount + 1` fetches,
      so 4 from the first attempt. */
  lemma {:induction false} CordonFetchBound(c: Cluster, o: Oracle, host: string, desired: bool, k: nat)
    requires k <= MaxRetryCount + 1
    ensures Extends(c, CordonFrom(c, o, host, desired, k).0)
    ensures Count(Since(c, CordonFrom(c, o, host, desired, k).0), IsGet) <= MaxRetryCount + 1 - k
    ensures k <= MaxRetryCount ==> 1 <= Count(Since(c, CordonFrom(c, o, host, desired, k).0), IsGet)
    decreases MaxRetryCount + 1 - k
  {
    var r := CordonFrom(c, o, host, desired, k).0;
    if k <= MaxRetryCount {
      AttemptLog(c, o, host, desired);
      var (c1, done) := Attempt(c, o, host, desired);
      CountUpToFour(Since(c, c1), IsGet);
      if !done {
        CordonFetchBound(c1, o, host, desired, k + 1);
        SinceTrans(c, c1, r);
        CountAppend(Since(c, c1), Since(c1, r), IsGet);
      }
    } else {
      assert Since(c, r) == [];
    }
  }

  /** Running out of attempts: when no attempt succeeds, every attempt was
      used and no write took effect; the only other effect of the source is
      a log line. */
  lemma {:induction false} CordonExhausted(c: Cluster, o: Oracle, host: string, desired: bool, k: nat)
    requires k <= MaxRetryCount + 1
    requires !CordonFrom(c, o, host, desired, k).1
    ensures Extends(c, CordonFrom(c, o, host, desired, k).0)
    ensures var r := CordonFrom(c, o, host, desired, k).0;
      Count(Since(c, r), IsWrite) == 0 && Count(Since(c, r), IsGet) == MaxRetryCount + 1 - k
    decreases MaxRetryCount + 1 - k
  {
    var r := CordonFrom(c, o, host, desired, k).0;
    if k <= MaxRetryCount {
      AttemptLog(c, o, host, desired);
      var (c1, done) := Attempt(c, o, host, desired);
      CountUpToFour(Since(c, c1), IsGet);
      CountUpToFour(Since(c, c1), IsWrite);
      CordonExhausted(c1, o, host, desired, k + 1);
      SinceTrans(c, c1, r);
      CountAppend(Since(c, c1), Since(c1, r), IsGet);
      CountAppend(Since(c, c1), Since(c1, r), IsWrite);
    } else {
      assert Since(c, r) == [];
    }
  }

  /** What a cordon or uncordon achieves: at most one write takes effect,
      only in a call that reports success, and it is the last call made, so
      the host's node is then stored exactly as written; after any success
      the stored node has the desired schedulability. */
  lemma {:induction false} CordonEffect(c: Cluster, o: Oracle, host: string, desired: bool, k: nat)
    requires ValidStore(c.nodes) && KeepsNames(o)
    ensures Extends(c, CordonFrom(c, o, host, desired, k).0)
    ensures var (r, changed) := CordonFrom(c, o, host, desired, k);
      var log := Since(c, r);
      Count(log, IsWrite) <= 1 &&
      (Count(log, IsWrite) == 1 ==>
        changed && |log| > 0 && log[|log| - 1].ReplaceCall? &&
        host in r.nodes && r.nodes[host] == log[|log| - 1].node)
    ensures var (r, changed) := CordonFrom(c, o, host, desired, k);
      changed ==> host in r.nodes && r.nodes[host].unschedulable == desired
    decreases MaxRetryCount + 1 - k
  {
    var r := CordonFrom(c, o, host, desired, k).0;
    if k <= MaxRetryCount {
      AttemptLog(c, o, host, desired);
      AttemptStore(c, o, host, desired);
      var (c1, done) := Attempt(c, o, host, desired);
      CountUpToFour(Since(c, c1), IsWrite);
      if !done {
        CordonEffect(c1, o, host, desired, k + 1);
        SinceTrans(c, c1, r);
        CountAppend(Since(c, c1), Since(c1, r), IsWrite);
        if Count(Since(c1, r), IsWrite) == 1 {
          assert Since(c, r)[|Since(c, r)| - 1] == Since(c1, r)[|Since(c1, r)| - 1];
        }
      }
    } else {
      assert Since(c, r) == [];
    }
  }

  /** Idempotence: when the first fetch returns the node already in the
      desired state, that fetch is the only call, nothing is written and the
      cordon or uncordon reports success. */
  lemma CordonAlreadyDesired(c: Cluster, o: Oracle, host: string, desired: bool, k: nat)
    requires k <= MaxRetryCount
    requires Get(c, o, host).1.Ok? && Get(c, o, host).1.value.unschedulable == desired
    ensures CordonFrom(c, o, host, desired, k) == (Get(c, o, host).0, true)
  {
  }

  /** Cordoning a node that is already cordoned, while the other writers at
      most cordon: no attempt ever tries a replace. */
  lemma {:induction false} CordonAlreadyCordoned(c: Cluster, o: Oracle, host: string, k: nat)
    requires OnlyCordons(o) && host in c.nodes && c.nodes[host].unschedulable
    ensures Extends(c, CordonFrom(c, o, host, true, k).0)
    ensures Count(Since(c, CordonFrom(c, o, host, true, k).0), IsReplace) == 0
    decreases MaxRetryCount + 1 - k
  {
    var r := CordonFrom(c, o, host, true, k).0;
    if k <= MaxRetryCount {
      DriftCordons(o, |c.calls|, c.nodes, host);
      AttemptLog(c, o, host, true);
      var (c1, done) := Attempt(c, o, host, true);
      CountUpToFour(Since(c, c1), IsReplace);
      if !done {
        CordonAlreadyCordoned(c1, o, host, k + 1);
        SinceTrans(c, c1, r);
        CountAppend(Since(c, c1), Since(c1, r), IsReplace);
      }
    } else {
      assert Since(c, r) == [];
    }
  }

  // ---------------------------------------------------------------------
  // Drain

  /** How `execDrainCmd` reads the command's output: a positive exit code is
      a failure carrying the command's standard error; otherwise an execution
      error is a failure carrying that error; otherwise the drain succeeded. */
  function DrainError(output: CmdOutput): (err: Option<string>)
    ensures err.None? <==> output.exitCode <= 0 && output.err.None?
    ensures output.exitCode > 0 ==> err == Some(output.stdErr)
    ensures output.exitCode <= 0 && output.err.Some? ==> err == Some(output.err.value)
  {
    if output.exitCode > 0 then Some(output.stdErr)
    else if output.err.Some? then Some(output.err.value)
    else None
  }

  /** `execDrainCmd`: run `kubectl drain` for the host once and classify its
      output. */
  method ExecDrainCmd(api: ClusterApi, hostname: string) returns (err: Option<string>)
    modifies api
    ensures api.State() == Run(old(api.State()), api.oracle, Kubectl, DrainArgs(hostname)).0
    ensures err == DrainError(api.oracle.output(|old(api.State()).calls|))
  {
    var output := api.Execute(Kubectl, DrainArgs(hostname));
    if output.exitCode > 0 {
      return Some(output.stdErr);
    }
    if output.err.Some? {
      return Some(output.err.value);
    }
    return None;
  }

  /** The end of a successful `drain`: fetch the node again and, if that
      worked, write it back with the drain label set. */
  function MarkDrained(c: Cluster, o: Oracle, host: string): Cluster {
    var (c1, again) := Get(c, o, host);
    if again.Err? then c1 else Replace(c1, o, Labelled(again.value)).0
  }

  /** The effect of `drain`: fetch the node; unless that fails or the node
      already carries the drain label, run the drain command; if it
      succeeded, mark the node as drained on a fresh copy. */
  function DrainSpec(c: Cluster, o: Oracle, host: string): Cluster {
    var (c1, got) := Get(c, o, host);
    if got.Err? || Evacuated(got.value) then c1
    else
      var (c2, output) := Run(c1, o, Kubectl, DrainArgs(host));
      if DrainError(output).Some? then c2 else MarkDrained(c2, o, host)
  }

  /** `drain`: drain the node of `hostname` unless it is already marked as
      drained, then mark it on a freshly fetched copy. Failures are only
      logged by the source. */
  method Drain(api: ClusterApi, hostname: string)
    modifies api
    ensures api.State() == DrainSpec(old(api.State()), api.oracle, hostname)
  {
    var node := api.ByName(hostname);
    if node.Err? {
      return;
    }
    if DrainLabelName !in node.value.labels || node.value.labels[DrainLabelName] != DrainLabelValue {
      var err := ExecDrainCmd(api, hostname);
      if err.Some? {
        return;
      }
      node := api.ByName(hostname);
      if node.Err? {
        return;
      }
      var labelled := node.value.(labels := node.value.labels[DrainLabelName := DrainLabelValue]);
      var written := api.ReplaceNode(labelled);
      if written.Err? {
        return;
      }
    }
  }

  /** The guard: a node whose fetch fails, or that comes back already
      labelled as drained, gets no drain command and no write. */
  lemma DrainGuard(c: Cluster, o: Oracle, host: string)
    requires Get(c, o, host).1.Err? || Evacuated(Get(c, o, host).1.value)
    ensures DrainSpec(c, o, host) == Get(c, o, host).0
  {
  }

  /** The calls one `drain` makes, call by call: the first fetch; the drain
      command exactly when that fetch returned a node not yet labelled; a
      second fetch exactly when the command succeeded; a write exactly when
      that second fetch succeeded, of the node it returned with the drain
      label set. An accepted write is the last call, so the host's node is
      then stored exactly as written. */
  lemma DrainLog(c: Cluster, o: Oracle, host: string)
    requires ValidStore(c.nodes) && KeepsNames(o)
    ensures Extends(c, DrainSpec(c, o, host))
    ensures ValidStore(DrainSpec(c, o, host).nodes)
    ensures var r := DrainSpec(c, o, host);
      var log := Since(c, r);
      var n := |c.calls|;
      var first := Get(c, o, host).1;
      1 <= |log| <= 4 &&
      log[0] == GetCall(host, if first.Ok? then Some(first.value) else None) &&
      (|log| == 1 <==> first.Err? || Evacuated(first.value)) &&
      (|log| >= 2 ==>
        log[1] == ExecCall(Kubectl, DrainArgs(host)) &&
        (|log| == 2 <==> DrainError(o.output(n + 1)).Some?)) &&
      (|log| >= 3 ==>
        log[2].GetCall? && log[2].name == host &&
        (|log| == 3 <==> log[2].got.None?)) &&
      (|log| == 4 ==>
        log[2].got.Some? && log[3].ReplaceCall? && log[3].node == Labelled(log[2].got.value) &&
        log[3].node.name == host &&
        (log[3].ok ==> host in r.nodes && r.nodes[host] == log[3].node))
  {
    var r := DrainSpec(c, o, host);
    var (c1, got) := Get(c, o, host);
    assert ValidStore(c1.nodes);
    var fetch := GetCall(host, if got.Ok? then Some(got.value) else None);
    if got.Err? || Evacuated(got.value) {
      SinceStep(c, c1, c1, fetch, IsExec);
    } else {
      var exec := ExecCall(Kubectl, DrainArgs(host));
      var (c2, output) := Run(c1, o, Kubectl, DrainArgs(host));
      assert ValidStore(c2.nodes);
      if DrainError(output).Some? {
        SinceStep(c1, c2, c2, exec, IsExec);
      } else {
        MarkDrainedLog(c2, o, host);
        SinceStep(c1, c2, r, exec, IsExec);
      }
      SinceStep(c, c1, r, fetch, IsExec);
    }
  }

  /** The calls of marking a node as drained: the fetch, and a write
      exactly when it returned the node, of that node with the drain label
      set; an accepted write leaves the node stored as written. */
  lemma MarkDrainedLog(c: Cluster, o: Oracle, host: string)
    requires ValidStore(c.nodes) && KeepsNames(o)
    ensures Extends(c, MarkDrained(c, o, host))
    ensures ValidStore(MarkDrained(c, o, host).nodes)
    ensures var r := MarkDrained(c, o, host);
      var log := Since(c, r);
      1 <= |log| <= 2 && log[0].GetCall? && log[0].name == host &&
      (|log| == 2 <==> log[0].got.Some?) &&
      (|log| == 2 ==>
        log[1].ReplaceCall? && log[1].node == Labelled(log[0].got.value) && log[1].node.name == host &&
        (log[1].ok ==> host in r.nodes && r.nodes[host] == log[1].node))
  {
    var (c1, again) := Get(c, o, host);
    assert ValidStore(c1.nodes);
    if again.Ok? {
      var node := Labelled(again.value);
      assert node.name == host;
      var (r, put) := Replace(c1, o, node);
      assert ValidStore(Current(c1, o));
      assert Since(c, r) == [GetCall(host, Some(again.value)), ReplaceCall(node, put.Ok?)];
    } else {
      assert Since(c, c1) == [GetCall(host, None)];
    }
  }

  /** Marking a node as drained when neither call fails and the other
      writers at most cordon: the node ends up labelled, no less cordoned,
      and no command is run. */
  lemma MarkDrainedLabels(c: Cluster, o: Oracle, host: string)
    requires OnlyCordons(o) && host in c.nodes && c.nodes[host].name == host
    requires !o.fails(|c.calls|) && !o.fails(|c.calls| + 1)
    ensures var r := MarkDrained(c, o, host);
      Extends(c, r) && Count(Since(c, r), IsExec) == 0 &&
      host in r.nodes && Evacuated(r.nodes[host]) &&
      (c.nodes[host].unschedulable ==> r.nodes[host].unschedulable)
  {
    var n := |c.calls|;
    DriftCordons(o, n, c.nodes, host);
    var (c1, again) := Get(c, o, host);
    DriftCordons(o, n + 1, c1.nodes, host);
    var node := Labelled(again.value);
    var (r, put) := Replace(c1, o, node);
    assert MarkDrained(c, o, host) == r;
    SinceStep(c1, r, r, ReplaceCall(node, true), IsExec);
    SinceStep(c, c1, r, GetCall(host, Some(again.value)), IsExec);
  }

  /** The counts of a log of up to four calls, call by call. */
  lemma CountUpToFour(log: seq<Call>, p: Call -> bool)
    requires 1 <= |log| <= 4
    ensures Count(log, p) == (if p(log[0]) then 1 else 0) +
      (if |log| > 1 && p(log[1]) then 1 else 0) +
      (if |log| > 2 && p(log[2]) then 1 else 0) +
      (if |log| > 3 && p(log[3]) then 1 else 0)
  {
    CountOne(log[0], p);
    assert log[..1] == [log[0]];
    if |log| > 1 {
      CountSnoc(log[..1], log[1], p);
      assert log[..2] == log[..1] + [log[1]];
    }
    if |log| > 2 {
      CountSnoc(log[..2], log[2], p);
      assert log[..3] == log[..2] + [log[2]];
    }
    if |log| > 3 {
      CountSnoc(log[..3], log[3], p);
      assert log == log[..3] + [log[3]];
    }
    assert log == log[..|log|];
  }

  /** Per call of `drain`: the command runs exactly when the first fetch
      returned a node without the drain label; at most one write is
      attempted, and only after the command succeeded and the node was
      fetched again; after an accepted write the stored node is labelled. */
  lemma DrainCounts(c: Cluster, o: Oracle, host: string)
    requires ValidStore(c.nodes) && KeepsNames(o)
    ensures Extends(c, DrainSpec(c, o, host))
    ensures var r := DrainSpec(c, o, host);
      var first := Get(c, o, host).1;
      Count(Since(c, r), IsExec) == if first.Ok? && !Evacuated(first.value) then 1 else 0
    ensures var r := DrainSpec(c, o, host);
      Count(Since(c, r), IsReplace) <= 1 &&
      (Count(Since(c, r), IsReplace) == 1 ==>
        Count(Since(c, r), IsExec) == 1 && DrainError(o.output(|c.calls| + 1)).None? &&
        !o.fails(|c.calls| + 2))
    ensures var r := DrainSpec(c, o, host);
      Count(Since(c, r), IsWrite) == 1 ==> host in r.nodes && Evacuated(r.nodes[host])
  {
    DrainLog(c, o, host);
    var r := DrainSpec(c, o, host);
    CountUpToFour(Since(c, r), IsExec);
    CountUpToFour(Since(c, r), IsReplace);
    CountUpToFour(Since(c, r), IsWrite);
  }

  /** What one `drain` touches: every call concerns the host, and a write
      comes only after a successful drain command and is the copy fetched
      just before it, with the drain label set and nothing else changed. */
  lemma DrainEffect(c: Cluster, o: Oracle, host: string)
    requires ValidStore(c.nodes) && KeepsNames(o)
    ensures Extends(c, DrainSpec(c, o, host))
    ensures var r := DrainSpec(c, o, host);
      forall call :: call in Since(c, r) ==> Concerns(call, host)
    ensures var log := Since(c, DrainSpec(c, o, host));
      forall i :: 0 <= i < |log| && log[i].ReplaceCall? ==>
        2 <= i && log[i - 2] == ExecCall(Kubectl, DrainArgs(host)) &&
        DrainError(o.output(|c.calls| + i - 2)).None? &&
        log[i - 1].GetCall? && log[i - 1].got.Some? && log[i].node == Labelled(log[i - 1].got.value)
  {
    DrainLog(c, o, host);
    var log := Since(c, DrainSpec(c, o, host));
    forall i | 0 <= i < |log|
      ensures Concerns(log[i], host)
    {
    }
  }

  /** One drain of a node not labelled yet, when the calls it makes do not
      fail, the command succeeds and the other writers at most cordon: the
      command runs once and the node ends up labelled as drained, and no
      less cordoned than it was. */
  lemma DrainOnce(c: Cluster, o: Oracle, host: string)
    requires ValidStore(c.nodes) && OnlyCordons(o)
    requires host in c.nodes && !Evacuated(c.nodes[host])
    requires !o.fails(|c.calls|) && !o.fails(|c.calls| + 2) && !o.fails(|c.calls| + 3)
    requires DrainError(o.output(|c.calls| + 1)).None?
    ensures var r := DrainSpec(c, o, host);
      Extends(c, r) && Count(Since(c, r), IsExec) == 1 &&
      host in r.nodes && Evacuated(r.nodes[host]) &&
      (c.nodes[host].unschedulable ==> r.nodes[host].unschedulable)
  {
    var n := |c.calls|;
    DriftCordons(o, n, c.nodes, host);
    var (c1, got) := Get(c, o, host);
    assert got.Ok? && got.value.labels == c.nodes[host].labels;
    assert !Evacuated(got.value);
    var (c2, output) := Run(c1, o, Kubectl, DrainArgs(host));
    assert DrainError(output).None?;
    var r := DrainSpec(c, o, host);
    assert r == MarkDrained(c2, o, host);
    DriftCordons(o, n + 1, c1.nodes, host);
    MarkDrainedLabels(c2, o, host);
    SinceStep(c1, c2, r, ExecCall(Kubectl, DrainArgs(host)), IsExec);
    SinceStep(c, c1, r, GetCall(host, Some(got.value)), IsExec);
  }

  /** Two drains in a row, under the conditions of `DrainOnce` and with
      nothing failing: the command runs exactly once, the node ends up
      labelled as drained and never uncordoned, and the second drain is a
      single fetch. */
  lemma DrainTwice(c: Cluster, o: Oracle, host: string)
    requires ValidStore(c.nodes) && OnlyCordons(o)
    requires host in c.nodes && !Evacuated(c.nodes[host])
    requires forall i :: !o.fails(i)
    requires DrainError(o.output(|c.calls| + 1)).None?
    ensures var c1 := DrainSpec(c, o, host);
      var c2 := DrainSpec(c1, o, host);
      Extends(c, c2) && Count(Since(c, c2), IsExec) == 1 &&
      host in c1.nodes && Evacuated(c1.nodes[host]) &&
      (c.nodes[host].unschedulable ==> c1.nodes[host].unschedulable) &&
      c2 == Get(c1, o, host).0
  {
    DrainOnce(c, o, host);
    var c1 := DrainSpec(c, o, host);
    DriftCordons(o, |c1.calls|, c1.nodes, host);
    DrainGuard(c1, o, host);
    var c2 := DrainSpec(c1, o, host);
    var fetch := GetCall(host, Some(Current(c1, o)[host]));
    assert Since(c1, c2) == [fetch];
    CountOne(fetch, IsExec);
    SinceTrans(c, c1, c2);
    CountAppend(Since(c, c1), Since(c1, c2), IsExec);
  }

  // ---------------------------------------------------------------------
  // Status sync

  /** A drain makes at least its first fetch. */
  lemma DrainExtends(c: Cluster, o: Oracle, host: string)
    ensures Extends(c, DrainSpec(c, o, host)) && |DrainSpec(c, o, host).calls| > |c.calls|
  {
  }

  /** What the reconciler does for one host, by its state: a host in a state
      it acts on always costs at least one call, any other host none. */
  function HostAction(c: Cluster, o: Oracle, host: Host): (r: Cluster)
    ensures Extends(c, r)
    ensures r == c <==> host.state == OtherState
  {
    match host.state
    case Activating =>
      CordonFetchBound(c, o, host.hostname, false, 0);
      CordonFrom(c, o, host.hostname, false, 0).0
    case Deactivating =>
      CordonFetchBound(c, o, host.hostname, true, 0);
      CordonFrom(c, o, host.hostname, true, 0).0
    case Evacuating =>
      DrainExtends(c, o, host.hostname);
      DrainSpec(c, o, host.hostname)
    case OtherState => c
  }

  /** Every host handled in list order, whatever happened to the ones
      before it. */
  function SyncHosts(c: Cluster, o: Oracle, hosts: seq<Host>): Cluster
    decreases |hosts|
  {
    if |hosts| == 0 then c
    else HostAction(SyncHosts(c, o, hosts[..|hosts| - 1]), o, hosts[|hosts| - 1])
  }

  /** The effect of `statusSync` given the outcome of reading the host list. */
  function StatusSyncSpec(c: Cluster, o: Oracle, hosts: Result<seq<Host>>): Cluster {
    if hosts.Err? then c else SyncHosts(c, o, hosts.value)
  }

  /** `statusSync`: read the host list (its outcome is `hosts`) and, if that
      worked, reconcile each host's node in turn: activating uncordons,
      deactivating cordons, evacuating drains, any other state is left alone. */
  method StatusSync(api: ClusterApi, hosts: Result<seq<Host>>)
    modifies api
    ensures api.State() == StatusSyncSpec(old(api.State()), api.oracle, hosts)
  {
    if hosts.Err? {
      return;
    }
    ghost var start := api.State();
    var list := hosts.value;
    for i := 0 to |list|
      invariant api.State() == SyncHosts(start, api.oracle, list[..i])
    {
      var host := list[i];
      ghost var before := api.State();
      match host.state {
        case Activating =>
          var changed := CordonUncordon(api, host.hostname, false);
        case Deactivating =>
          var changed := CordonUncordon(api, host.hostname, true);
        case Evacuating =>
          Drain(api, host.hostname);
        case OtherState =>
      }
      assert api.State() == HostAction(before, api.oracle, host);
      assert list[..i + 1][..i] == list[..i];
    }
    assert list[..|list|] == list;
  }

  /** If the host list cannot be read, no node is fetched or written. */
  lemma SyncReadFailure(c: Cluster, o: Oracle, error: string)
    ensures StatusSyncSpec(c, o, Err(error)).calls == c.calls
    ensures StatusSyncSpec(c, o, Err(error)).nodes == c.nodes
  {
  }

  /** Handling a list is handling its first part and then, from the state
      that left, the rest: hosts are handled in order and one host's outcome
      never stops the next. */
  lemma {:induction false} SyncAppend(c: Cluster, o: Oracle, first: seq<Host>, rest: seq<Host>)
    ensures SyncHosts(c, o, first + rest) == SyncHosts(SyncHosts(c, o, first), o, rest)
    decreases |rest|
  {
    if |rest| == 0 {
      assert first + rest == first;
    } else {
      var init := rest[..|rest| - 1];
      assert (first + rest)[..|first + rest| - 1] == first + init;
      SyncAppend(c, o, first, init);
    }
  }

  /** Hosts in no state the reconciler acts on cause no call at all. */
  lemma {:induction false} SyncIgnoresOtherStates(c: Cluster, o: Oracle, hosts: seq<Host>)
    requires forall i :: 0 <= i < |hosts| ==> hosts[i].state == OtherState
    ensures SyncHosts(c, o, hosts) == c
    decreases |hosts|
  {
    if |hosts| > 0 {
      SyncIgnoresOtherStates(c, o, hosts[..|hosts| - 1]);
    }
  }

  lemma SyncOne(c: Cluster, o: Oracle, host: Host)
    ensures SyncHosts(c, o, [host]) == HostAction(c, o, host)
  {
    assert [host][..0] == [];
  }

  /** With an API server that answers every call, one attempt suffices:
      the cordon or uncordon succeeds, and the host's node ends up as the
      first fetch returned it, written back only if its schedulability
      differed. */
  lemma CordonNoFaults(c: Cluster, o: Oracle, host: string, desired: bool)
    requires ValidStore(c.nodes) && KeepsNames(o)
    requires !o.fails(|c.calls|) && !o.fails(|c.calls| + 1)
    requires host in Current(c, o) && host in o.drift(|c.calls| + 1)(Current(c, o))
    ensures var (r, changed) := CordonFrom(c, o, host, desired, 0);
      var fetched := Current(c, o)[host];
      changed && host in r.nodes &&
      r.nodes[host] == if fetched.unschedulable == desired then fetched else Cordoned(fetched, desired)
  {
    AttemptStore(c, o, host, desired);
    assert Attempt(c, o, host, desired).1;
  }

  /** Every host action keeps each node stored under its own name. */
  lemma HostActionKeepsStore(c: Cluster, o: Oracle, host: Host)
    requires ValidStore(c.nodes) && KeepsNames(o)
    ensures ValidStore(HostAction(c, o, host).nodes)
  {
    match host.state
    case Activating => CordonCallsConcernHost(c, o, host.hostname, false, 0);
    case Deactivating => CordonCallsConcernHost(c, o, host.hostname, true, 0);
    case Evacuating => DrainLog(c, o, host.hostname);
    case OtherState =>
  }

  /** A whole sync keeps each node stored under its own name. */
  lemma {:induction false} SyncKeepsStore(c: Cluster, o: Oracle, hosts: seq<Host>)
    requires ValidStore(c.nodes) && KeepsNames(o)
    ensures ValidStore(SyncHosts(c, o, hosts).nodes)
    decreases |hosts|
  {
    if |hosts| > 0 {
      SyncKeepsStore(c, o, hosts[..|hosts| - 1]);
      HostActionKeepsStore(SyncHosts(c, o, hosts[..|hosts| - 1]), o, hosts[|hosts| - 1]);
    }
  }

  /** One activating and then one deactivating sync of a host whose node
      was never drained, with nothing failing and the other writers at most
      cordoning: the first leaves the node schedulable, the second
      unschedulable, and neither leaves the drain label. */
  lemma CordonScenario(c: Cluster, o: Oracle, host: string)
    requires ValidStore(c.nodes) && OnlyCordons(o)
    requires host in c.nodes && !Evacuated(c.nodes[host])
    requires forall i :: !o.fails(i)
    ensures var c1 := StatusSyncSpec(c, o, Ok([Host(host, Activating)]));
      var c2 := StatusSyncSpec(c1, o, Ok([Host(host, Deactivating)]));
      host in c1.nodes && !c1.nodes[host].unschedulable && !Evacuated(c1.nodes[host]) &&
      host in c2.nodes && c2.nodes[host].unschedulable && !Evacuated(c2.nodes[host]) &&
      ValidStore(c2.nodes)
  {
    OnlyCordonsKeepsNames(o);
    var c1 := StatusSyncSpec(c, o, Ok([Host(host, Activating)]));
    SyncOne(c, o, Host(host, Activating));
    DriftCordons(o, |c.calls|, c.nodes, host);
    DriftCordons(o, |c.calls| + 1, Current(c, o), host);
    CordonNoFaults(c, o, host, false);
    SyncKeepsStore(c, o, [Host(host, Activating)]);
    var c2 := StatusSyncSpec(c1, o, Ok([Host(host, Deactivating)]));
    SyncOne(c1, o, Host(host, Deactivating));
    DriftCordons(o, |c1.calls|, c1.nodes, host);
    DriftCordons(o, |c1.calls| + 1, Current(c1, o), host);
    CordonNoFaults(c1, o, host, true);
    SyncKeepsStore(c1, o, [Host(host, Deactivating)]);
  }

  /** The life of one host whose node was never drained, when nothing fails,
      the drain command succeeds and the other writers at most cordon:
      activating leaves its node schedulable, deactivating makes it
      unschedulable, evacuating drains it once and labels it, and evacuating
      again runs no further drain, writes nothing and finds the node as the
      first evacuation left it. */
  lemma HostLifecycleScenario(c: Cluster, o: Oracle, host: string)
    requires ValidStore(c.nodes) && OnlyCordons(o)
    requires host in c.nodes && !Evacuated(c.nodes[host])
    requires forall i :: !o.fails(i)
    requires forall i :: DrainError(o.output(i)).None?
    ensures var c1 := StatusSyncSpec(c, o, Ok([Host(host, Activating)]));
      var c2 := StatusSyncSpec(c1, o, Ok([Host(host, Deactivating)]));
      var c3 := StatusSyncSpec(c2, o, Ok([Host(host, Evacuating)]));
      var c4 := StatusSyncSpec(c3, o, Ok([Host(host, Evacuating)]));
      host in c1.nodes && !c1.nodes[host].unschedulable &&
      host in c2.nodes && c2.nodes[host].unschedulable &&
      host in c3.nodes && Evacuated(c3.nodes[host]) && c3.nodes[host].unschedulable &&
      Extends(c2, c4) && Count(Since(c2, c4), IsExec) == 1 &&
      Extends(c3, c4) && Since(c3, c4) == [GetCall(host, Some(c3.nodes[host]))] &&
      host in c4.nodes && c4.nodes[host] == c3.nodes[host]
  {
    CordonScenario(c, o, host);
    var c1 := StatusSyncSpec(c, o, Ok([Host(host, Activating)]));
    var c2 := StatusSyncSpec(c1, o, Ok([Host(host, Deactivating)]));
    var c3 := StatusSyncSpec(c2, o, Ok([Host(host, Evacuating)]));
    SyncOne(c2, o, Host(host, Evacuating));
    SyncOne(c3, o, Host(host, Evacuating));
    DrainTwice(c2, o, host);
    DriftCordons(o, |c3.calls|, c3.nodes, host);
    var seen := Current(c3, o)[host];
    assert seen == c3.nodes[host];
  }
}
