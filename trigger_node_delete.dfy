/** Deleting a trigger node from the editor canvas: the node goes, and so
    does every edge that starts or ends at it. */
module BaseTriggerNode {
  import Seqs

  /** A canvas node; only its id is consulted here. */
  datatype FlowNode = FlowNode(id: string, nodeType: string)

  /** A canvas edge from node `source` to node `target`. */
  datatype FlowEdge = FlowEdge(id: string, source: string, target: string)

  /** The editor's node and edge lists. */
  datatype Graph = Graph(nodes: seq<FlowNode>, edges: seq<FlowEdge>)

  predicate IsIncident(e: FlowEdge, id: string)
  {
    e.source == id || e.target == id
  }

  function KeepNode(id: string): FlowNode -> bool
  {
    (n: FlowNode) => n.id != id
  }

  function KeepEdge(id: string): FlowEdge -> bool
  {
    (e: FlowEdge) => !IsIncident(e, id)
  }

  /** `handleDelete`: both lists are replaced by their filtered versions. */
  function Delete(g: Graph, id: string): (r: Graph)
    ensures forall i :: 0 <= i < |r.nodes| ==> r.nodes[i].id != id
    ensures forall i :: 0 <= i < |g.nodes| && g.nodes[i].id != id ==> g.nodes[i] in r.nodes
    ensures forall i :: 0 <= i < |r.edges| ==> !IsIncident(r.edges[i], id)
    ensures forall i :: 0 <= i < |g.edges| && !IsIncident(g.edges[i], id) ==> g.edges[i] in r.edges
  {
    Graph(Seqs.Filter(g.nodes, KeepNode(id)), Seqs.Filter(g.edges, KeepEdge(id)))
  }

  /** What survives keeps its relative order and its multiplicity; what is
      removed is exactly the node with that id and the edges touching it. */
  lemma DeleteKeepsOrder(g: Graph, id: string)
    ensures Seqs.IsSubsequence(Delete(g, id).nodes, g.nodes)
    ensures Seqs.IsSubsequence(Delete(g, id).edges, g.edges)
    ensures forall n :: multiset(Delete(g, id).nodes)[n] == if n.id != id then multiset(g.nodes)[n] else 0
    ensures forall e :: multiset(Delete(g, id).edges)[e] == if !IsIncident(e, id) then multiset(g.edges)[e] else 0
  {
    Seqs.FilterIsSubsequence(g.nodes, KeepNode(id));
    Seqs.FilterIsSubsequence(g.edges, KeepEdge(id));
  }

  /** Deleting the same node twice is deleting it once. */
  lemma DeleteIdempotent(g: Graph, id: string)
    ensures Delete(Delete(g, id), id) == Delete(g, id)
  {
    Seqs.FilterIdempotent(g.nodes, KeepNode(id));
    Seqs.FilterIdempotent(g.edges, KeepEdge(id));
  }

  /** Deleting an id that no node has and no edge touches changes nothing. */
  lemma DeleteAbsent(g: Graph, id: string)
    requires forall i :: 0 <= i < |g.nodes| ==> g.nodes[i].id != id
    requires forall i :: 0 <= i < |g.edges| ==> !IsIncident(g.edges[i], id)
    ensures Delete(g, id) == g
  {
    Seqs.FilterAllKept(g.nodes, KeepNode(id));
    Seqs.FilterAllKept(g.edges, KeepEdge(id));
  }
}
