/**
 * `create_vm`: the order of the calls it makes on the Proxmox client, what it
 * does when one of them raises, and the rollback guard in its rescue clause.
 * The client itself is out of sight; its answers are given as a `Cluster`.
 */
module Provisioning {
  import opened Wrappers
  import opened Hashes
  import opened Proxmox

  type NodeName = string

  /** `get_cluster_node`: `client.nodes.first` for empty attributes, else `find_by_id(args[:node])`. */
  datatype NodeQuery = FirstNode | NodeById(id: Option<Value>)

  /** A virtual machine as the client returns it. */
  datatype Vm = Vm(id: string)

  /** How the Proxmox client answers each call. */
  datatype Cluster = Cluster(
    node: NodeQuery -> Result<NodeName, Error>,
    idValid: Option<Value> -> bool,
    create: (NodeName, Payload) -> Option<Error>,
    get: (NodeName, Option<Value>) -> Result<Option<Vm>, Error>)

  /** The calls `create_vm` can make, in the order it makes them. */
  datatype Call =
    | NodeCall(query: NodeQuery)
    | IdValidCall(node: NodeName, vmid: Option<Value>)
    | CreateCall(node: NodeName, payload: Payload)
    | GetCall(node: NodeName, vmid: Option<Value>)

  /** The Proxmox client, recording every call made on it. */
  class Client {
    const cluster: Cluster
    var calls: seq<Call>

    constructor (cluster: Cluster)
      ensures this.cluster == cluster && calls == []
    {
      this.cluster := cluster;
      calls := [];
    }

    method Node(query: NodeQuery) returns (r: Result<NodeName, Error>)
      modifies this`calls
      ensures calls == old(calls) + [NodeCall(query)] && r == cluster.node(query)
    {
      calls := calls + [NodeCall(query)];
      r := cluster.node(query);
    }

    /** `node.servers.id_valid?(vmid)` */
    method IdValid(node: NodeName, vmid: Option<Value>) returns (ok: bool)
      modifies this`calls
      ensures calls == old(calls) + [IdValidCall(node, vmid)] && ok == cluster.idValid(vmid)
    {
      calls := calls + [IdValidCall(node, vmid)];
      ok := cluster.idValid(vmid);
    }

    /** `node.servers.create(payload)` */
    method Create(node: NodeName, payload: Payload) returns (e: Option<Error>)
      modifies this`calls
      ensures calls == old(calls) + [CreateCall(node, payload)] && e == cluster.create(node, payload)
    {
      calls := calls + [CreateCall(node, payload)];
      e := cluster.create(node, payload);
    }

    /** `node.servers.get(vmid)` */
    method Get(node: NodeName, vmid: Option<Value>) returns (r: Result<Option<Vm>, Error>)
      modifies this`calls
      ensures calls == old(calls) + [GetCall(node, vmid)] && r == cluster.get(node, vmid)
    {
      calls := calls + [GetCall(node, vmid)];
      r := cluster.get(node, vmid);
    }

  }

  /** One run of `create_vm`: what it returns or raises, and the calls it made. */
  datatype Run = Run(result: Result<Option<Vm>, Error>, calls: seq<Call>)

  /** `call` was the last call and raised `e`, or let `parse_vm` run and raise `e`. */
  predicate RaisedBy(cluster: Cluster, call: Call, e: Error, parsed: Result<Payload, Error>) {
    match call
    case NodeCall(q) => cluster.node(q) == Failure(e) || (cluster.node(q).Success? && parsed == Failure(e))
    case IdValidCall(_, vmid) => !cluster.idValid(vmid) && e == InvalidVmid
    case CreateCall(n, p) => cluster.create(n, p) == Some(e)
    case GetCall(n, vmid) => cluster.get(n, vmid) == Failure(e)
  }

  /** `node.servers.create(payload)` and then `node.servers.get(vmid)`, unless `create` raises. */
  function SubmitRun(cluster: Cluster, node: NodeName, payload: Payload, vmid: Option<Value>): Run {
    var created := cluster.create(node, payload);
    if created.Some? then Run(Failure(created.value), [CreateCall(node, payload)])
    else Run(cluster.get(node, vmid), [CreateCall(node, payload), GetCall(node, vmid)])
  }

  /** `parse_vm` (whose outcome is `parsed`) and, when it succeeds, `create` and `get` on `node`. */
  function SubmitParsedRun(cluster: Cluster, node: NodeName, vmid: Option<Value>, parsed: Result<Payload, Error>): Run {
    match parsed
    case Failure(e) => Run(Failure(e), [])
    case Success(payload) => SubmitRun(cluster, node, payload, vmid)
  }

  /** The node `create_vm` provisions on: the first one for empty attributes, else the one named by `node`. */
  function TargetQuery(args: map<string, Value>): NodeQuery {
    if args == map[] then FirstNode else NodeById(Lookup(args, "node"))
  }

  /**
   * What `create_vm` does once the vmid has passed: look up the target node,
   * then parse and submit.
   */
  function ProvisionRun(cluster: Cluster, args: map<string, Value>, parsed: Result<Payload, Error>): Run {
    var query := TargetQuery(args);
    var node := cluster.node(query);
    if node.Failure? then Run(Failure(node.error), [NodeCall(query)])
    else
      var submitted := SubmitParsedRun(cluster, node.value, Lookup(args, "vmid"), parsed);
      Run(submitted.result, [NodeCall(query)] + submitted.calls)
  }

  /**
   * `create_vm` on the values it reads, with `parsed` what `parse_vm` gives
   * for the attributes when it is reached: the vmid is checked on the first
   * node before anything else.
   */
  function CreateVmRun(cluster: Cluster, args: map<string, Value>, parsed: Result<Payload, Error>): Run {
    var vmid := Lookup(args, "vmid");
    var home := cluster.node(FirstNode);
    if home.Failure? then Run(Failure(home.error), [NodeCall(FirstNode)])
    else if !cluster.idValid(vmid) then
      Run(Failure(InvalidVmid), [NodeCall(FirstNode), IdValidCall(home.value, vmid)])
    else
      var provisioned := ProvisionRun(cluster, args, parsed);
      Run(provisioned.result, [NodeCall(FirstNode), IdValidCall(home.value, vmid)] + provisioned.calls)
  }

  /** Whether `create_vm` gets as far as calling `parse_vm`. */
  predicate ReachesParse(cluster: Cluster, args: map<string, Value>) {
    && cluster.node(FirstNode).Success?
    && cluster.idValid(Lookup(args, "vmid"))
    && cluster.node(TargetQuery(args)).Success?
  }

  /**
   * The vmid is checked on the first node before anything else is asked of
   * the cluster: an invalid one raises "invalid vmid" after those two calls.
   */
  lemma InvalidVmidFirst(cluster: Cluster, args: map<string, Value>, parsed: Result<Payload, Error>)
    requires cluster.node(FirstNode).Success? && !cluster.idValid(Lookup(args, "vmid"))
    ensures CreateVmRun(cluster, args, parsed) ==
      Run(Failure(InvalidVmid), [NodeCall(FirstNode), IdValidCall(cluster.node(FirstNode).value, Lookup(args, "vmid"))])
  {
  }

  /**
   * `create` is called at most once, only after the vmid passed the check and
   * only with the payload `parse_vm` returned, on the node `get_cluster_node`
   * chose; and it is called whenever every step before it succeeds.
   */
  lemma CreateOnlyAfterChecks(cluster: Cluster, args: map<string, Value>, parsed: Result<Payload, Error>)
    ensures var run := CreateVmRun(cluster, args, parsed);
      && |run.calls| >= 1 && run.calls[0] == NodeCall(FirstNode)
      && (|run.calls| > 3 <==> ReachesParse(cluster, args) && parsed.Success?)
      && (ReachesParse(cluster, args) && parsed.Success? ==>
            run.calls[2] == NodeCall(TargetQuery(args))
            && run.calls[3] == CreateCall(cluster.node(TargetQuery(args)).value, parsed.value))
      && forall i :: 0 <= i < |run.calls| && run.calls[i].CreateCall? ==>
           i == 3 && run.calls[1] == IdValidCall(cluster.node(FirstNode).value, Lookup(args, "vmid"))
           && cluster.idValid(Lookup(args, "vmid")) && parsed == Success(run.calls[i].payload)
  {
  }

  /**
   * Every failure is raised again as it was raised by the step that failed,
   * which is the last call of the run (or `parse_vm`, right after the last
   * node lookup).
   */
  lemma FailuresReraised(cluster: Cluster, args: map<string, Value>, parsed: Result<Payload, Error>)
    ensures var run := CreateVmRun(cluster, args, parsed);
      run.result.Failure? ==> RaisedBy(cluster, run.calls[|run.calls| - 1], run.result.error, parsed)
  {
  }

  /** A run that succeeds has created the vm and returns what `get` answered for its vmid. */
  lemma SuccessCreated(cluster: Cluster, args: map<string, Value>, parsed: Result<Payload, Error>)
    ensures var run := CreateVmRun(cluster, args, parsed);
      run.result.Success? ==>
        && |run.calls| == 5 && run.calls[3].CreateCall?
        && parsed == Success(run.calls[3].payload)
        && cluster.create(run.calls[3].node, run.calls[3].payload).None?
        && run.calls[4] == GetCall(run.calls[3].node, Lookup(args, "vmid"))
        && run.result == cluster.get(run.calls[4].node, run.calls[4].vmid)
  {
  }

  /** `parse_vm` keeps the `vmid` entry that `get` is then asked for. */
  lemma VmidKept(args: map<string, Value>)
    ensures Lookup(args - GeneralKeys, "vmid") == Lookup(args, "vmid")
  {
  }

  /** Appending two stretches of calls to a log one after the other appends them together. */
  lemma AppendCalls(log: seq<Call>, first: seq<Call>, rest: seq<Call>)
    ensures log + first + rest == log + (first + rest)
  {
  }

  /** `create` then `get`, as in `create_vm`. */
  method Submit(client: Client, node: NodeName, payload: Payload, vmid: Option<Value>)
    returns (r: Result<Option<Vm>, Error>)
    modifies client`calls
    ensures var run := SubmitRun(client.cluster, node, payload, vmid);
      r == run.result && client.calls == old(client.calls) + run.calls
  {
    var created := client.Create(node, payload);
    if created.Some? {
      return Failure(created.value);
    }
    r := client.Get(node, vmid);
  }

  /** `parse_vm` on the attributes, then `create` and `get` on `node` when it succeeds. */
  method SubmitParsed(client: Client, node: NodeName, args: Attributes, flatten: Flattener)
    returns (r: Result<Option<Vm>, Error>)
    modifies client`calls, args, ConfigGroup(args)
    ensures
      var parsed := ParseVmResult(old(args.entries), old(Contents(GroupAt(args.entries, "config"))),
                                  old(Contents(GroupAt(args.entries, "volumes"))), flatten);
      var run := SubmitParsedRun(client.cluster, node, Lookup(old(args.entries), "vmid"), parsed);
      && r == run.result
      && client.calls == old(client.calls) + run.calls
      && (parsed.Failure? ==> unchanged(args) && unchanged(old(ConfigGroup(args))))
      && (parsed.Success? ==>
            var config := GroupAt(old(args.entries), "config").value;
            && args.entries == old(args.entries) - GeneralKeys
            && config.entries == ConfigLeftover(old(config.entries)))
  {
    var payload := ParseVm(args, flatten);
    if payload.Failure? {
      return Failure(payload.error);
    }
    VmidKept(old(args.entries));
    r := Submit(client, node, payload.value, Lookup(args.entries, "vmid"));
  }

  /** The steps of `create_vm` after the vmid check. */
  method Provision(client: Client, args: Attributes, flatten: Flattener) returns (r: Result<Option<Vm>, Error>)
    modifies client`calls, args, ConfigGroup(args)
    ensures
      var parsed := ParseVmResult(old(args.entries), old(Contents(GroupAt(args.entries, "config"))),
                                  old(Contents(GroupAt(args.entries, "volumes"))), flatten);
      var run := ProvisionRun(client.cluster, old(args.entries), parsed);
      && r == run.result
      && client.calls == old(client.calls) + run.calls
      && (var reached := client.cluster.node(TargetQuery(old(args.entries))).Success?;
          (!reached || parsed.Failure? ==> unchanged(args) && unchanged(old(ConfigGroup(args))))
          && (reached && parsed.Success? ==>
            var config := GroupAt(old(args.entries), "config").value;
            && args.entries == old(args.entries) - GeneralKeys
            && config.entries == ConfigLeftover(old(config.entries))))
  {
    var node := client.Node(TargetQuery(args.entries));
    if node.Failure? {
      return Failure(node.error);
    }
    assert args.entries == old(args.entries);
    assert Contents(GroupAt(args.entries, "config")) == old(Contents(GroupAt(args.entries, "config")));
    assert Contents(GroupAt(args.entries, "volumes")) == old(Contents(GroupAt(args.entries, "volumes")));
    ghost var checked := client.calls;
    r := SubmitParsed(client, node.value, args, flatten);
    AppendCalls(old(client.calls), [NodeCall(TargetQuery(old(args.entries)))], client.calls[|checked|..]);
  }

  /**
   * `create_vm`, with its begin/rescue: `rolledBack` records whether the
   * rescue clause reached `destroy_vm vm.id`, which it never does, since a
   * failure anywhere leaves `vm` nil; the failure is raised again.
   */
  method CreateVm(client: Client, args: Attributes, flatten: Flattener)
    returns (r: Result<Option<Vm>, Error>, ghost rolledBack: bool)
    modifies client`calls, args, ConfigGroup(args)
    ensures !rolledBack
    ensures
      var parsed := ParseVmResult(old(args.entries), old(Contents(GroupAt(args.entries, "config"))),
                                  old(Contents(GroupAt(args.entries, "volumes"))), flatten);
      var run := CreateVmRun(client.cluster, old(args.entries), parsed);
      && r == run.result
      && client.calls == old(client.calls) + run.calls
      && (var reached := ReachesParse(client.cluster, old(args.entries));
          (!reached || parsed.Failure? ==> unchanged(args) && unchanged(old(ConfigGroup(args))))
          && (reached && parsed.Success? ==>
            var config := GroupAt(old(args.entries), "config").value;
            && args.entries == old(args.entries) - GeneralKeys
            && config.entries == ConfigLeftover(old(config.entries))))
  {
    var vm: Option<Vm> := None;
    var failure: Option<Error> := None;
    var vmid := Lookup(args.entries, "vmid");
    var home := client.Node(FirstNode);
    if home.Failure? {
      failure := Some(home.error);
    } else {
      var valid := client.IdValid(home.value, vmid);
      AppendCalls(old(client.calls), [NodeCall(FirstNode)], [IdValidCall(home.value, vmid)]);
      assert [NodeCall(FirstNode)] + [IdValidCall(home.value, vmid)] == [NodeCall(FirstNode), IdValidCall(home.value, vmid)];
      if !valid {
        failure := Some(InvalidVmid);
      } else {
        assert args.entries == old(args.entries);
        assert Contents(GroupAt(args.entries, "config")) == old(Contents(GroupAt(args.entries, "config")));
        assert Contents(GroupAt(args.entries, "volumes")) == old(Contents(GroupAt(args.entries, "volumes")));
        ghost var checked := client.calls;
        var provisioned := Provision(client, args, flatten);
        AppendCalls(old(client.calls), [NodeCall(FirstNode), IdValidCall(home.value, vmid)], client.calls[|checked|..]);
        match provisioned
        case Failure(e) => failure := Some(e);
        case Success(fetched) => vm := fetched;
      }
    }
    rolledBack := false;
    if failure.Some? {
      // rescue => e: `destroy_vm vm.id if vm`
      rolledBack := vm.Some?;
      r := Failure(failure.value);
    } else {
      r := Success(vm);
    }
  }
}
