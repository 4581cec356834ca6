/** What both generations of the action base do once a handler has returned: a handler that
    names configurations asks the cluster to reload them, and the reply depends on the
    cluster's answer. The answer is good when every node of the cluster answered and every
    node that answered reports exactly one reloaded configuration type. */
module ConfigUpdate {
  import opened Common
  import opened Responses

  /** The number of configuration types a node reports after one reload request. */
  const EXPECTED_CONFIG_COUNT: nat := 1

  /** One node's answer: its id and the configuration types it reloaded, if it says. */
  datatype NodeResponse = NodeResponse(nodeId: string, updatedConfigTypes: Option<seq<string>>)

  predicate NodeUpdated(n: NodeResponse)
  {
    n.updatedConfigTypes.Some? && |n.updatedConfigTypes.value| == EXPECTED_CONFIG_COUNT
  }

  /** The count of answering nodes matches the cluster, and every node reloaded exactly one
      type. */
  predicate ConfigUpdateSucceeded(nodeCount: nat, nodes: seq<NodeResponse>)
  {
    |nodes| == nodeCount && forall i :: 0 <= i < |nodes| ==> NodeUpdated(nodes[i])
  }

  /** The index of the first node that did not reload exactly one type, if there is one. */
  function FirstFailure(nodes: seq<NodeResponse>): (r: Option<nat>)
    ensures r.Some? ==> r.value < |nodes| && !NodeUpdated(nodes[r.value])
    ensures r.Some? ==> forall i :: 0 <= i < r.value ==> NodeUpdated(nodes[i])
    ensures r.None? <==> forall i :: 0 <= i < |nodes| ==> NodeUpdated(nodes[i])
  {
    if nodes == [] then None
    else if !NodeUpdated(nodes[0]) then Some(0)
    else match FirstFailure(nodes[1..])
      case None => None
      case Some(j) => Some(j + 1)
  }

  /** An independent reading of the same check: the counts agree and no node fails. */
  lemma SucceededIffNoFailure(nodeCount: nat, nodes: seq<NodeResponse>)
    ensures ConfigUpdateSucceeded(nodeCount, nodes) <==> |nodes| == nodeCount && FirstFailure(nodes).None?
  {
  }

  /** `checkConfigUpdateResponse`: the flag starts as the count comparison and every node's
      verdict is and-ed into it, without stopping at the first failure. */
  method CheckConfigUpdateResponse(nodeCount: nat, nodes: seq<NodeResponse>) returns (success: bool)
    ensures success == ConfigUpdateSucceeded(nodeCount, nodes)
  {
    success := |nodes| == nodeCount;
    var i := 0;
    while i < |nodes|
      invariant 0 <= i <= |nodes|
      invariant success == (|nodes| == nodeCount && forall j :: 0 <= j < i ==> NodeUpdated(nodes[j]))
    {
      var node := nodes[i];
      var successNode := node.updatedConfigTypes.Some? && |node.updatedConfigTypes.value| == EXPECTED_CONFIG_COUNT;
      success := success && successNode;
      i := i + 1;
    }
  }

  /** How the reload request a handler asked for ended: the cluster answered with its nodes'
      responses, the request failed with an exception, or no answer came before the wait
      ran out. */
  datatype ClusterAnswer =
    | Answered(nodes: seq<NodeResponse>)
    | Failed(error: string)
    | NoAnswer

  /** What the REST layer ends with: a response sent on the channel, or an exception that
      escapes the request handling altogether. */
  datatype Reply =
    | Sent(response: RestResponse)
    | Escaped(message: string)

  /** The reply for a handler's outcome. A thrown exception becomes a 500 with its text. A
      response that names no configuration is sent as it is. Otherwise the reload runs and
      its failure, or an answer that fails the check, becomes a 500; running out of time
      escapes as an exception. */
  function Deliver(o: Outcome, nodeCount: nat, cluster: ClusterAnswer): (r: Reply)
    ensures o.Thrown? ==> r == Sent(RestResponse(INTERNAL_SERVER_ERROR, Text(o.message)))
    ensures o.Returned? && o.configs == [] ==> r == Sent(o.response)
    ensures o.Returned? && o.configs != [] && cluster.Answered? ==>
              r == if ConfigUpdateSucceeded(nodeCount, cluster.nodes) then Sent(o.response)
                   else Sent(RestResponse(INTERNAL_SERVER_ERROR, Text("Unable to update " + ListText(o.configs))))
    ensures o.Returned? && o.configs != [] && cluster.Failed? ==>
              r == Sent(RestResponse(INTERNAL_SERVER_ERROR, Text(cluster.error)))
    ensures o.Returned? && o.configs != [] && cluster.NoAnswer? ==>
              r == Escaped("Timeout updating " + ListText(o.configs))
  {
    match o
    case Thrown(e) => Sent(RestResponse(INTERNAL_SERVER_ERROR, Text(e)))
    case Returned(configs, response) =>
      if configs == [] then Sent(response)
      else match cluster
        case Answered(nodes) =>
          if ConfigUpdateSucceeded(nodeCount, nodes) then Sent(response)
          else Sent(RestResponse(INTERNAL_SERVER_ERROR, Text("Unable to update " + ListText(configs))))
        case Failed(e) => Sent(RestResponse(INTERNAL_SERVER_ERROR, Text(e)))
        case NoAnswer => Escaped("Timeout updating " + ListText(configs))
  }

  /** The cluster's answer matters only when the handler asked for a reload; whatever it is,
      the client gets the handler's own response or a 500, and only a reload that was asked
      for can escape. */
  lemma DeliverDependsOnReloadOnly(o: Outcome, nodeCount: nat, c1: ClusterAnswer, c2: ClusterAnswer)
    ensures o.Thrown? || o.configs == [] ==> Deliver(o, nodeCount, c1) == Deliver(o, nodeCount, c2)
    ensures var r := Deliver(o, nodeCount, c1);
            r.Sent? ==> (o.Returned? && r.response == o.response) || r.response.status == INTERNAL_SERVER_ERROR
    ensures Deliver(o, nodeCount, c1).Escaped? ==> o.Returned? && o.configs != [] && c1 == NoAnswer
  {
  }
}
