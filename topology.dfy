/** The agent tree the topology panel draws: a node per agent, built by one pass over the
    events, and a link from each node to its parent. */
module Topology {
  import opened Wrappers
  import opened Types

  datatype AgentNode = AgentNode(id: string, parentId: Option<string>, tokenCount: int, active: bool)

  /** A JavaScript `Map` from agent id to node: its keys in insertion order, and its entries. */
  datatype NodeMap = NodeMap(keys: seq<string>, nodes: map<string, AgentNode>)

  predicate Distinct(ks: seq<string>) {
    forall i, j :: 0 <= i < j < |ks| ==> ks[i] != ks[j]
  }

  /** Each key is listed once, the listed keys are the entries' keys, and a node's id is its key. */
  ghost predicate WellFormed(m: NodeMap) {
    Distinct(m.keys) &&
    (forall k :: k in m.nodes <==> k in m.keys) &&
    (forall k :: k in m.nodes ==> m.nodes[k].id == k)
  }

  /** `map.set(k, n)`: a new key goes last, a key already present keeps its place. */
  function Put(m: NodeMap, k: string, n: AgentNode): NodeMap {
    NodeMap(if k in m.nodes then m.keys else m.keys + [k], m.nodes[k := n])
  }

  lemma PutWellFormed(m: NodeMap, k: string, n: AgentNode)
    requires WellFormed(m) && n.id == k
    ensures WellFormed(Put(m, k, n))
  {
  }

  /** The root agent: no parent, no tokens, active. */
  const Root := AgentNode("agent-0", None, 0, true)

  const Initial := NodeMap(["agent-0"], map["agent-0" := Root])

  /** The agent an event is about: the child of a spawn or completion, the agent of a session
      end. */
  function Subject(e: TraceEvent): Option<string> {
    match e
    case AgentSpawn(_, _, c) => Some(c)
    case AgentComplete(_, _, c) => Some(c)
    case SessionEnd(b, _, _, _) => Some(b.agentId)
    case _ => None
  }

  /** One event's effect on the node map. Only a spawn adds a node, only the event's subject
      changes, and other kinds of event change nothing. */
  function Apply(m: NodeMap, e: TraceEvent): (r: NodeMap)
    ensures r.nodes.Keys == m.nodes.Keys + (if e.AgentSpawn? then {e.childAgentId} else {})
    ensures forall k :: k in m.nodes && Some(k) != Subject(e) ==> r.nodes[k] == m.nodes[k]
    ensures Subject(e).None? ==> r == m
    ensures e.AgentSpawn? ==> r.nodes[e.childAgentId] == AgentNode(e.childAgentId, Some(e.parentAgentId), 0, true)
    ensures e.AgentComplete? && e.childAgentId in m.nodes ==>
      r.nodes[e.childAgentId] == m.nodes[e.childAgentId].(active := false)
    ensures e.SessionEnd? && e.base.agentId in m.nodes ==>
      r.nodes[e.base.agentId] == m.nodes[e.base.agentId].(tokenCount := e.totalInputTokens + e.totalOutputTokens)
  {
    match e
    case AgentSpawn(_, p, c) => Put(m, c, AgentNode(c, Some(p), 0, true))
    case AgentComplete(_, _, c) =>
      if c in m.nodes then Put(m, c, m.nodes[c].(active := false)) else m
    case SessionEnd(b, input, output, _) =>
      if b.agentId in m.nodes then Put(m, b.agentId, m.nodes[b.agentId].(tokenCount := input + output)) else m
    case _ => m
  }

  /** The node map after the events, in order, starting from the root alone. */
  function Build(es: seq<TraceEvent>): NodeMap {
    if |es| == 0 then Initial else Apply(Build(es[..|es| - 1]), es[|es| - 1])
  }

  /** The loop that builds the node map, updating it in place event by event. */
  method BuildNodeMap(events: seq<TraceEvent>) returns (m: NodeMap)
    ensures m == Build(events)
  {
    var keys := ["agent-0"];
    var nodes := map["agent-0" := Root];
    for i := 0 to |events|
      invariant NodeMap(keys, nodes) == Build(events[..i])
    {
      assert events[..i + 1][..i] == events[..i];
      var e := events[i];
      if e.AgentSpawn? {
        if e.childAgentId !in nodes {
          keys := keys + [e.childAgentId];
        }
        nodes := nodes[e.childAgentId := AgentNode(e.childAgentId, Some(e.parentAgentId), 0, true)];
      }
      if e.AgentComplete? && e.childAgentId in nodes {
        nodes := nodes[e.childAgentId := nodes[e.childAgentId].(active := false)];
      }
      if e.SessionEnd? && e.base.agentId in nodes {
        var a := e.base.agentId;
        nodes := nodes[a := nodes[a].(tokenCount := e.totalInputTokens + e.totalOutputTokens)];
      }
    }
    assert events[..|events|] == events;
    m := NodeMap(keys, nodes);
  }

  /** Every node map the events build is well formed and holds the root. */
  lemma {:induction false} BuildWellFormed(es: seq<TraceEvent>)
    ensures WellFormed(Build(es)) && "agent-0" in Build(es).nodes
  {
    if |es| > 0 {
      var m := Build(es[..|es| - 1]);
      BuildWellFormed(es[..|es| - 1]);
      match es[|es| - 1]
      case AgentSpawn(_, p, c) => PutWellFormed(m, c, AgentNode(c, Some(p), 0, true));
      case AgentComplete(_, _, c) =>
        if c in m.nodes { PutWellFormed(m, c, m.nodes[c].(active := false)); }
      case SessionEnd(b, input, output, _) =>
        if b.agentId in m.nodes { PutWellFormed(m, b.agentId, m.nodes[b.agentId].(tokenCount := input + output)); }
      case _ =>
    }
  }

  predicate Spawned(es: seq<TraceEvent>, k: string) {
    exists i :: 0 <= i < |es| && es[i].AgentSpawn? && es[i].childAgentId == k
  }

  /** The nodes are the root and the children of spawn events; completions and session ends
      never add one. */
  lemma {:induction false} NodesAreSpawned(es: seq<TraceEvent>, k: string)
    ensures k in Build(es).nodes <==> k == "agent-0" || Spawned(es, k)
  {
    if |es| > 0 {
      var n := |es| - 1;
      NodesAreSpawned(es[..n], k);
      assert forall i :: 0 <= i < n ==> es[..n][i] == es[i];
    }
  }

  /** `Array.from(map.values())`: the nodes in key order. */
  function Nodes(m: NodeMap): (ns: seq<AgentNode>)
    requires forall k :: k in m.keys ==> k in m.nodes
    ensures |ns| == |m.keys|
    ensures forall i :: 0 <= i < |m.keys| ==> ns[i] == m.nodes[m.keys[i]]
  {
    seq(|m.keys|, i requires 0 <= i < |m.keys| => m.nodes[m.keys[i]])
  }

  datatype Link = Link(source: string, target: string)

  /** A node is linked when it has a (non-empty) parent id that is itself a node. */
  predicate Linked(n: AgentNode, nodes: map<string, AgentNode>) {
    n.parentId.Some? && n.parentId.value != "" && n.parentId.value in nodes
  }

  /** The links of the nodes, in order: one per linked node, from its parent to it. */
  function LinksOf(ns: seq<AgentNode>, nodes: map<string, AgentNode>): (ls: seq<Link>)
    ensures |ls| <= |ns|
    ensures forall l :: l in ls <==>
      exists i :: 0 <= i < |ns| && Linked(ns[i], nodes) && l == Link(ns[i].parentId.value, ns[i].id)
  {
    if |ns| == 0 then []
    else
      var last := ns[|ns| - 1];
      var init := ns[..|ns| - 1];
      assert forall i :: 0 <= i < |init| ==> init[i] == ns[i];
      LinksOf(init, nodes) + (if Linked(last, nodes) then [Link(last.parentId.value, last.id)] else [])
  }

  function Links(m: NodeMap): seq<Link>
    requires forall k :: k in m.keys ==> k in m.nodes
  {
    LinksOf(Nodes(m), m.nodes)
  }

  /** The links of a well-formed map are exactly the (parent, child) pairs whose parent is a
      node, with a non-empty parent id. */
  lemma LinksAreEdges(m: NodeMap, l: Link)
    requires WellFormed(m)
    ensures l in Links(m) <==>
      l.target in m.nodes && m.nodes[l.target].parentId == Some(l.source) && l.source != "" && l.source in m.nodes
  {
    var ns := Nodes(m);
    if l.target in m.nodes && m.nodes[l.target].parentId == Some(l.source) && l.source != "" && l.source in m.nodes {
      var i :| 0 <= i < |m.keys| && m.keys[i] == l.target;
      assert Linked(ns[i], m.nodes) && l == Link(ns[i].parentId.value, ns[i].id);
    }
  }

  /** A list with no repeats has as many elements as its set. */
  lemma {:induction false} DistinctCard(ks: seq<string>)
    requires Distinct(ks)
    ensures |(set k | k in ks)| == |ks|
  {
    if |ks| > 0 {
      var init := ks[..|ks| - 1];
      var last := ks[|ks| - 1];
      DistinctCard(init);
      assert (set k | k in ks) == (set k | k in init) + {last};
      assert last !in (set k | k in init);
    }
  }

  /** There are at most as many links as nodes. */
  lemma LinksAtMostNodes(m: NodeMap)
    requires WellFormed(m)
    ensures |Links(m)| <= |m.nodes|
  {
    DistinctCard(m.keys);
    assert m.nodes.Keys == (set k | k in m.keys);
  }
}
