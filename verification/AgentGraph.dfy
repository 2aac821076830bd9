/** multi_agent/graph_builder.py, graph_store.py and graph_runtime_config.py: building an agent graph from
    a nested description, and configuration inheritance along the chain of command. */
module AgentGraph {
  import opened Wrappers

  datatype Lifecycle = Ephemeral | Supervised | Persistent

  /** The nested description. `payload` stands for the fields that are copied through unchanged (name, role,
      prompt, tools, skills, servers, capabilities, budget, hooks, metadata). */
  datatype Spec = Spec(
    id: string,
    payload: string,
    lifecycle: Option<string>,
    runtimeConfig: Option<string>,
    children: seq<Spec>
  )

  datatype AgentNode = AgentNode(
    id: string,
    parentId: Option<string>,
    payload: string,
    lifecycle: Lifecycle,
    runtimeConfig: Option<string>
  )

  function LifecycleName(l: Lifecycle): string {
    match l
    case Ephemeral => "ephemeral"
    case Supervised => "supervised"
    case Persistent => "persistent"
  }

  /** `LifecycleMode(node.get("lifecycle", "ephemeral"))`; none for the exception. */
  function ParseLifecycle(name: Option<string>): Option<Lifecycle> {
    if name.None? || name.value == "ephemeral" then Some(Ephemeral)
    else if name.value == "supervised" then Some(Supervised)
    else if name.value == "persistent" then Some(Persistent)
    else None
  }

  predicate ValidSpec(t: Spec) {
    ParseLifecycle(t.lifecycle).Some? && ValidSpecs(t.children)
  }

  predicate ValidSpecs(ts: seq<Spec>) {
    ts == [] || (ValidSpec(ts[0]) && ValidSpecs(ts[1..]))
  }

  // ----- the flat form -----

  function NodeOf(t: Spec, parent: Option<string>): AgentNode
    requires ParseLifecycle(t.lifecycle).Some?
  {
    AgentNode(t.id, parent, t.payload, ParseLifecycle(t.lifecycle).value, t.runtimeConfig)
  }

  /** The tree in preorder, with parent pointers. */
  function Flatten(t: Spec, parent: Option<string>): (nodes: seq<AgentNode>)
    requires ValidSpec(t)
    ensures nodes != [] && nodes[0] == NodeOf(t, parent)
  {
    [NodeOf(t, parent)] + FlattenAll(t.children, t.id)
  }

  function FlattenAll(ts: seq<Spec>, parent: string): seq<AgentNode>
    requires ValidSpecs(ts)
  {
    if ts == [] then [] else Flatten(ts[0], Some(parent)) + FlattenAll(ts[1..], parent)
  }

  /** One of the first `n` nodes has this identifier. */
  predicate Before(nodes: seq<AgentNode>, n: nat, id: string) {
    exists i :: 0 <= i < |nodes| && i < n && nodes[i].id == id
  }

  predicate HasId(nodes: seq<AgentNode>, id: string) {
    Before(nodes, |nodes|, id)
  }

  predicate DistinctIds(nodes: seq<AgentNode>) {
    forall i, j :: 0 <= i < j < |nodes| ==> nodes[i].id != nodes[j].id
  }

  /** Every node has its parent before it. */
  predicate ParentsFirst(nodes: seq<AgentNode>) {
    forall i: nat :: i < |nodes| && nodes[i].parentId.Some? ==> Before(nodes, i, nodes[i].parentId.value)
  }

  predicate WellFormed(nodes: seq<AgentNode>) {
    DistinctIds(nodes) && ParentsFirst(nodes)
  }

  // ----- the store -----

  datatype AddError = AlreadyExists | ParentMissing

  function AddOutcome(nodes: seq<AgentNode>, node: AgentNode): Option<AddError> {
    if HasId(nodes, node.id) then Some(AlreadyExists)
    else if node.parentId.Some? && !HasId(nodes, node.parentId.value) then Some(ParentMissing)
    else None
  }

  /** How many of the queued nodes are added before the first one that is refused. */
  function Accepted(nodes: seq<AgentNode>, queue: seq<AgentNode>): (n: nat)
    ensures n <= |queue|
    decreases |queue|
  {
    if queue == [] || AddOutcome(nodes, queue[0]).Some? then 0
    else 1 + Accepted(nodes + [queue[0]], queue[1..])
  }

  /** The nodes from position `i` upwards to a root; the walk stops early at an empty identifier. */
  function ChainAt(nodes: seq<AgentNode>, i: nat): seq<AgentNode>
    requires WellFormed(nodes) && i < |nodes|
    decreases i
  {
    if nodes[i].parentId.None? || nodes[i].parentId.value == "" then [nodes[i]]
    else
      var parent := nodes[i].parentId.value;
      assert Before(nodes, i, parent);
      [nodes[i]] + ChainAt(nodes, Position(nodes, parent))
  }

  /** The first node with this identifier. */
  function Position(nodes: seq<AgentNode>, id: string): (i: nat)
    requires HasId(nodes, id)
    ensures i < |nodes| && nodes[i].id == id
    ensures forall j :: 0 <= j < i ==> nodes[j].id != id
  {
    if nodes[0].id == id then 0
    else
      var k :| 0 <= k < |nodes| && nodes[k].id == id;
      assert nodes[1..][k - 1].id == id;
      1 + Position(nodes[1..], id)
  }

  function Chain(nodes: seq<AgentNode>, id: string): seq<AgentNode>
    requires WellFormed(nodes)
  {
    if id == "" || !HasId(nodes, id) then [] else ChainAt(nodes, Position(nodes, id))
  }

  /** The chain from a parent pointer upwards. */
  function ChainAbove(nodes: seq<AgentNode>, parent: Option<string>): seq<AgentNode>
    requires WellFormed(nodes)
  {
    if parent.Some? then Chain(nodes, parent.value) else []
  }

  // ----- forests: what edits keep -----

  /** Numbers that fall from every node to its parent. */
  type Rank = map<string, nat>

  ghost predicate Ranks(nodes: seq<AgentNode>, rank: Rank) {
    forall i: nat :: i < |nodes| ==>
      && nodes[i].id in rank
      && (nodes[i].parentId.Some? ==>
            nodes[i].parentId.value in rank && rank[nodes[i].parentId.value] < rank[nodes[i].id])
  }

  ghost predicate Acyclic(nodes: seq<AgentNode>) {
    exists rank: Rank :: Ranks(nodes, rank)
  }

  predicate ParentsKnown(nodes: seq<AgentNode>) {
    forall i: nat :: i < |nodes| && nodes[i].parentId.Some? ==> HasId(nodes, nodes[i].parentId.value)
  }

  /** Distinct identifiers, and parent pointers that lead to known nodes and never back; unlike in the flat
      form of a tree, a parent may come after its children. */
  ghost predicate IsForest(nodes: seq<AgentNode>) {
    DistinctIds(nodes) && ParentsKnown(nodes) && Acyclic(nodes)
  }

  function Up(nodes: seq<AgentNode>, id: string): Option<string> {
    if HasId(nodes, id) then nodes[Position(nodes, id)].parentId else None
  }

  predicate Reaches(nodes: seq<AgentNode>, id: string, root: string, n: nat)
    decreases n
  {
    id == root || (n > 0 && Up(nodes, id).Some? && Reaches(nodes, Up(nodes, id).value, root, n - 1))
  }

  /** The parent pointers lead from `id` to `root`. */
  ghost predicate InSubtree(nodes: seq<AgentNode>, root: string, id: string) {
    exists n: nat :: Reaches(nodes, id, root, n)
  }

  /** The nodes of a list that are not under the root. */
  ghost function Remaining(nodes: seq<AgentNode>, root: string, part: seq<AgentNode>): seq<AgentNode> {
    if part == [] then []
    else
      var init, last := part[..|part| - 1], part[|part| - 1];
      Remaining(nodes, root, init) + if InSubtree(nodes, root, last.id) then [] else [last]
  }

  datatype UpdateOutcome = NoSuchNode | NewParentMissing | WouldCycle | Updated

  ghost function OutcomeOfUpdate(nodes: seq<AgentNode>, updated: AgentNode): UpdateOutcome {
    if !HasId(nodes, updated.id) then NoSuchNode
    else if updated.parentId == Up(nodes, updated.id) || updated.parentId.None? then Updated
    else if !HasId(nodes, updated.parentId.value) then NewParentMissing
    else if InSubtree(nodes, updated.id, updated.parentId.value) then WouldCycle
    else Updated
  }

  /** The chain of command from here upwards: each node is followed by its parent, until a root, an empty or an
      unknown identifier. */
  predicate IsChain(nodes: seq<AgentNode>, from: Option<string>, chain: seq<AgentNode>)
    decreases |chain|
  {
    if from.None? || from.value == "" || !HasId(nodes, from.value) then chain == []
    else
      && chain != []
      && chain[0] == nodes[Position(nodes, from.value)]
      && IsChain(nodes, chain[0].parentId, chain[1..])
  }

  /** A visited node is above the current one in rank, or there is no current one. */
  ghost predicate Above(nodes: seq<AgentNode>, rank: Rank, visited: string, current: Option<string>) {
    current.Some? ==> visited in rank && (current.value in rank ==> rank[current.value] < rank[visited])
  }

  predicate AllDistinct(ids: seq<string>) {
    forall i, j :: 0 <= i < j < |ids| ==> ids[i] != ids[j]
  }

  ghost predicate AreChildren(nodes: seq<AgentNode>, id: string, collected: seq<string>, children: seq<string>) {
    && AllDistinct(children)
    && forall c :: c in children <==>
         exists j :: 0 <= j < |nodes| && nodes[j].id == c && nodes[j].parentId == Some(id) && c !in collected
  }

  /** The state of the breadth-first search: what is collected, what is queued. */
  ghost predicate Bfs(nodes: seq<AgentNode>, root: string, ids: seq<string>, queue: seq<string>) {
    var all := ids + queue;
    && AllDistinct(all)
    && root in all
    && (forall id :: id in all ==> HasId(nodes, id) && InSubtree(nodes, root, id))
    && (forall id :: id in all && id != root ==> Up(nodes, id).Some? && Up(nodes, id).value in ids)
    && (forall c :: Up(nodes, c).Some? && Up(nodes, c).value in ids ==> c in all)
  }

  lemma UpIsParent(nodes: seq<AgentNode>, i: nat)
    requires DistinctIds(nodes) && i < |nodes|
    ensures HasId(nodes, nodes[i].id) && Up(nodes, nodes[i].id) == nodes[i].parentId
  {
  }

  lemma RankOf(nodes: seq<AgentNode>, rank: Rank, id: string)
    requires Ranks(nodes, rank) && HasId(nodes, id)
    ensures id in rank
    ensures Up(nodes, id).Some? ==> Up(nodes, id).value in rank && rank[Up(nodes, id).value] < rank[id]
  {
    assert nodes[Position(nodes, id)].id == id;
  }

  /** A list whose parents come first is a forest: the positions are a rank. */
  lemma WellFormedIsForest(nodes: seq<AgentNode>)
    requires WellFormed(nodes)
    ensures IsForest(nodes)
  {
    forall i: nat | i < |nodes| && nodes[i].parentId.Some? ensures HasId(nodes, nodes[i].parentId.value) {
      assert Before(nodes, i, nodes[i].parentId.value);
    }
    PositionsRank(nodes);
  }

  /** Every identifier with its position. */
  function PositionRank(nodes: seq<AgentNode>): Rank {
    map i | 0 <= i < |nodes| :: nodes[i].id := PositionOr(nodes, nodes[i].id)
  }

  lemma PositionsRank(nodes: seq<AgentNode>)
    requires WellFormed(nodes)
    ensures Ranks(nodes, PositionRank(nodes))
  {
    var rank := PositionRank(nodes);
    forall i: nat | i < |nodes| && nodes[i].parentId.Some?
      ensures nodes[i].parentId.value in rank && rank[nodes[i].parentId.value] < rank[nodes[i].id]
    {
      PositionUnique(nodes, i);
      assert Before(nodes, i, nodes[i].parentId.value);
      var k :| 0 <= k < i && nodes[k].id == nodes[i].parentId.value;
      PositionUnique(nodes, k);
    }
  }

  function PositionOr(nodes: seq<AgentNode>, id: string): nat {
    if HasId(nodes, id) then Position(nodes, id) else 0
  }

  lemma ForestAppend(nodes: seq<AgentNode>, node: AgentNode)
    requires IsForest(nodes) && AddOutcome(nodes, node).None?
    ensures IsForest(nodes + [node])
  {
    var all := nodes + [node];
    var rank: Rank :| Ranks(nodes, rank);
    forall i: nat | i < |all| && all[i].parentId.Some? ensures HasId(all, all[i].parentId.value) {
      var p := all[i].parentId.value;
      assert HasId(nodes, p);
      var k :| 0 <= k < |nodes| && nodes[k].id == p;
      assert all[k].id == p;
    }
    if node.parentId.Some? {
      RankOf(nodes, rank, node.parentId.value);
    }
    var rank' := rank[node.id := if node.parentId.Some? then rank[node.parentId.value] + 1 else 0];
    forall i: nat | i < |all|
      ensures all[i].id in rank'
      ensures all[i].parentId.Some? ==>
                all[i].parentId.value in rank' && rank'[all[i].parentId.value] < rank'[all[i].id]
    {
      if i < |nodes| {
        assert nodes[i].id != node.id;
        assert nodes[i].parentId.Some? ==> HasId(nodes, nodes[i].parentId.value);
      }
    }
    assert Ranks(all, rank');
  }

  /** A node is added exactly when the graph stays a forest with it; of the refusals, the one is for an
      identifier that is taken, the other for a parent that is not there before the node. */
  lemma AddRefusedIff(nodes: seq<AgentNode>, node: AgentNode)
    requires IsForest(nodes)
    ensures AddOutcome(nodes, node) == None <==> IsForest(nodes + [node])
    ensures AddOutcome(nodes, node) == Some(AlreadyExists) <==> !DistinctIds(nodes + [node])
  {
    var all := nodes + [node];
    assert all[|nodes|] == node;
    assert forall i :: 0 <= i < |nodes| ==> all[i] == nodes[i];
    if HasId(nodes, node.id) {
      var i :| 0 <= i < |nodes| && nodes[i].id == node.id;
      assert all[i].id == all[|nodes|].id;
    } else if AddOutcome(nodes, node).None? {
      ForestAppend(nodes, node);
    } else if IsForest(all) {
      var rank: Rank :| Ranks(all, rank);
      assert HasId(all, all[|nodes|].parentId.value);
      var k :| 0 <= k < |all| && all[k].id == node.parentId.value;
      assert k < |nodes| ==> HasId(nodes, node.parentId.value);
    }
  }

  // ----- the walk -----

  /** One step of the walk: the node above has a lower rank, so that it has not been visited. */
  lemma WalkStep(nodes: seq<AgentNode>, rank: Rank, visited: set<string>, current: string, node: AgentNode, id: string,
                 chain: seq<AgentNode>)
    requires Ranks(nodes, rank) && HasId(nodes, current) && current != ""
    requires node == nodes[Position(nodes, current)]
    requires forall v :: v in visited ==> Above(nodes, rank, v, Some(current))
    requires forall rest :: IsChain(nodes, Some(current), rest) ==> IsChain(nodes, Some(id), chain + rest)
    ensures forall v :: v in visited + {current} ==> Above(nodes, rank, v, node.parentId)
    ensures forall rest :: IsChain(nodes, node.parentId, rest) ==> IsChain(nodes, Some(id), chain + [node] + rest)
    ensures current in rank
    ensures node.parentId.Some? ==> node.parentId.value in rank && rank[node.parentId.value] < rank[current]
  {
    RankOf(nodes, rank, current);
    forall rest | IsChain(nodes, node.parentId, rest) ensures IsChain(nodes, Some(id), chain + [node] + rest) {
      ChainLink(nodes, current, node, rest);
      assert chain + ([node] + rest) == chain + [node] + rest;
    }
  }

  lemma ChainLink(nodes: seq<AgentNode>, current: string, node: AgentNode, rest: seq<AgentNode>)
    requires HasId(nodes, current) && current != "" && node == nodes[Position(nodes, current)]
    requires IsChain(nodes, node.parentId, rest)
    ensures IsChain(nodes, Some(current), [node] + rest)
  {
    assert ([node] + rest)[1..] == rest;
  }

  /** There is only one chain of command. */
  lemma {:induction false} ChainIsUnique(nodes: seq<AgentNode>, from: Option<string>, a: seq<AgentNode>, b: seq<AgentNode>)
    requires IsChain(nodes, from, a) && IsChain(nodes, from, b)
    ensures a == b
    decreases |a|
  {
    if a != [] {
      ChainIsUnique(nodes, a[0].parentId, a[1..], b[1..]);
      assert a == [a[0]] + a[1..] && b == [b[0]] + b[1..];
    }
  }

  lemma {:induction false} ChainAtIsChain(nodes: seq<AgentNode>, i: nat)
    requires WellFormed(nodes) && i < |nodes| && nodes[i].id != ""
    ensures IsChain(nodes, Some(nodes[i].id), ChainAt(nodes, i))
    decreases i
  {
    PositionUnique(nodes, i);
    var chain, parent := ChainAt(nodes, i), nodes[i].parentId;
    if parent.None? || parent.value == "" {
      assert chain[1..] == [];
    } else {
      assert Before(nodes, i, parent.value);
      ChainAtIsChain(nodes, Position(nodes, parent.value));
      assert chain[1..] == ChainAt(nodes, Position(nodes, parent.value));
    }
  }

  lemma ChainIsChain(nodes: seq<AgentNode>, id: string)
    requires WellFormed(nodes)
    ensures IsChain(nodes, Some(id), Chain(nodes, id))
  {
    if id != "" && HasId(nodes, id) {
      ChainAtIsChain(nodes, Position(nodes, id));
    }
  }

  // ----- the search -----

  lemma SubtreeParent(nodes: seq<AgentNode>, root: string, id: string)
    requires InSubtree(nodes, root, id) && id != root
    ensures Up(nodes, id).Some? && InSubtree(nodes, root, Up(nodes, id).value)
  {
    var n: nat :| Reaches(nodes, id, root, n);
    assert Reaches(nodes, Up(nodes, id).value, root, n - 1);
  }

  lemma SubtreeChild(nodes: seq<AgentNode>, root: string, id: string)
    requires Up(nodes, id).Some? && InSubtree(nodes, root, Up(nodes, id).value)
    ensures InSubtree(nodes, root, id)
  {
    var n: nat :| Reaches(nodes, Up(nodes, id).value, root, n);
    assert Reaches(nodes, id, root, n + 1);
  }

  lemma {:induction false} ReachesDown(nodes: seq<AgentNode>, rank: Rank, id: string, root: string, n: nat)
    requires Ranks(nodes, rank) && ParentsKnown(nodes) && HasId(nodes, id) && Reaches(nodes, id, root, n)
    ensures HasId(nodes, root) && id in rank && root in rank && rank[root] <= rank[id]
    decreases n
  {
    RankOf(nodes, rank, id);
    if id != root {
      assert HasId(nodes, Up(nodes, id).value);
      ReachesDown(nodes, rank, Up(nodes, id).value, root, n - 1);
    }
  }

  /** A root is not under one of its own descendants. */
  lemma RootHasNoParentBelow(nodes: seq<AgentNode>, root: string, id: string)
    requires IsForest(nodes) && HasId(nodes, root) && HasId(nodes, id) && InSubtree(nodes, root, id)
    ensures Up(nodes, root) != Some(id)
  {
    var rank: Rank :| Ranks(nodes, rank);
    var n: nat :| Reaches(nodes, id, root, n);
    ReachesDown(nodes, rank, id, root, n);
    RankOf(nodes, rank, root);
  }

  lemma AppendDistinct(ids: seq<string>, id: string)
    requires AllDistinct(ids) && id !in ids
    ensures AllDistinct(ids + [id])
  {
    forall i | 0 <= i < |ids| ensures ids[i] != id {
      assert ids[i] in ids;
    }
  }

  lemma BfsStart(nodes: seq<AgentNode>, root: string)
    requires HasId(nodes, root)
    ensures Bfs(nodes, root, [], [root])
  {
    assert Reaches(nodes, root, root, 0);
    assert [] + [root] == [root];
  }

  /** The children of the next node are new: neither collected nor queued. */
  lemma ChildrenAreNew(nodes: seq<AgentNode>, root: string, ids: seq<string>, queue: seq<string>, c: string)
    requires IsForest(nodes) && Bfs(nodes, root, ids, queue) && queue != [] && HasId(nodes, c)
    requires Up(nodes, c) == Some(queue[0])
    ensures c !in ids + queue
  {
    var id := queue[0];
    assert (ids + queue)[|ids|] == id && id in ids + queue;
    DistinctParts(ids, queue);
    assert id !in ids;
    RootHasNoParentBelow(nodes, root, id);
  }

  lemma DistinctParts(a: seq<string>, b: seq<string>)
    requires AllDistinct(a + b)
    ensures forall c :: c in b ==> c !in a
  {
    forall i, j | 0 <= i < |a| && 0 <= j < |b| ensures a[i] != b[j] {
      assert (a + b)[i] == a[i] && (a + b)[|a| + j] == b[j];
    }
  }

  lemma BfsStep(nodes: seq<AgentNode>, root: string, ids: seq<string>, queue: seq<string>, children: seq<string>)
    requires IsForest(nodes) && Bfs(nodes, root, ids, queue) && queue != []
    requires AreChildren(nodes, queue[0], ids + [queue[0]], children)
    ensures Bfs(nodes, root, ids + [queue[0]], queue[1..] + children)
  {
    var id := queue[0];
    var all := ids + queue;
    var next := ids + [id] + (queue[1..] + children);
    assert next == all + children;
    assert all[|ids|] == id;
    forall c | c in children ensures HasId(nodes, c) && Up(nodes, c) == Some(id) && c !in all {
      var j :| 0 <= j < |nodes| && nodes[j].id == c && nodes[j].parentId == Some(id);
      UpIsParent(nodes, j);
      ChildrenAreNew(nodes, root, ids, queue, c);
    }
    DistinctConcat(all, children);
    forall c | c in next ensures HasId(nodes, c) && InSubtree(nodes, root, c) {
      if c in children {
        SubtreeChild(nodes, root, c);
      }
    }
    forall c | Up(nodes, c).Some? && Up(nodes, c).value in ids + [id] ensures c in next {
      if Up(nodes, c).value == id {
        ChildrenAreNew(nodes, root, ids, queue, c);
        var j := Position(nodes, c);
        assert nodes[j].id == c && nodes[j].parentId == Some(id) && c !in ids + [id];
      }
    }
  }

  lemma DistinctConcat(a: seq<string>, b: seq<string>)
    requires AllDistinct(a) && AllDistinct(b) && forall c :: c in b ==> c !in a
    ensures AllDistinct(a + b)
  {
    forall i, j | 0 <= i < |a| && 0 <= j < |b| ensures a[i] != b[j] {
      assert a[i] in a && b[j] in b;
    }
  }

  lemma BfsEnd(nodes: seq<AgentNode>, root: string, ids: seq<string>)
    requires Bfs(nodes, root, ids, [])
    ensures AllDistinct(ids)
    ensures forall id :: id in ids <==> InSubtree(nodes, root, id)
  {
    assert ids + [] == ids;
    forall id | InSubtree(nodes, root, id) ensures id in ids {
      var n: nat :| Reaches(nodes, id, root, n);
      ReachedIsCollected(nodes, root, ids, id, n);
    }
  }

  lemma {:induction false} ReachedIsCollected(nodes: seq<AgentNode>, root: string, ids: seq<string>, id: string, n: nat)
    requires root in ids && forall c :: Up(nodes, c).Some? && Up(nodes, c).value in ids ==> c in ids
    requires Reaches(nodes, id, root, n)
    ensures id in ids
    decreases n
  {
    if id != root {
      ReachedIsCollected(nodes, root, ids, Up(nodes, id).value, n - 1);
    }
  }

  /** Distinct known identifiers are no more than the nodes. */
  lemma {:induction false} KnownAreFew(nodes: seq<AgentNode>, ids: seq<string>)
    requires AllDistinct(ids) && forall id :: id in ids ==> HasId(nodes, id)
    ensures |ids| <= |nodes|
    decreases |ids|
  {
    if ids != [] {
      var n := |ids| - 1;
      assert ids[n] in ids;
      var i :| 0 <= i < |nodes| && nodes[i].id == ids[n];
      var rest := nodes[..i] + nodes[i + 1..];
      assert ids == ids[..n] + [ids[n]];
      forall id | id in ids[..n] ensures HasId(rest, id) {
        assert id in ids;
        var k :| 0 <= k < |nodes| && nodes[k].id == id;
        assert k != i;
        assert rest[if k < i then k else k - 1].id == id;
      }
      KnownAreFew(rest, ids[..n]);
    }
  }

  // ----- removing and moving -----

  lemma {:induction false} RemainingMembers(nodes: seq<AgentNode>, root: string, part: seq<AgentNode>)
    ensures forall m :: m in Remaining(nodes, root, part) <==> m in part && !InSubtree(nodes, root, m.id)
    ensures DistinctIds(part) ==> DistinctIds(Remaining(nodes, root, part))
  {
    if part != [] {
      var init, last := part[..|part| - 1], part[|part| - 1];
      RemainingMembers(nodes, root, init);
      assert part == init + [last];
      var rest := Remaining(nodes, root, init);
      if DistinctIds(part) {
        forall i | 0 <= i < |rest| ensures rest[i].id != last.id {
          assert rest[i] in init;
        }
      }
    }
  }

  /** Without a node and everything under it, a forest is left. */
  lemma RemainingIsForest(nodes: seq<AgentNode>, root: string)
    requires IsForest(nodes)
    ensures IsForest(Remaining(nodes, root, nodes))
  {
    var rest := Remaining(nodes, root, nodes);
    RemainingMembers(nodes, root, nodes);
    var rank: Rank :| Ranks(nodes, rank);
    forall i: nat | i < |rest|
      ensures rest[i].id in rank
      ensures rest[i].parentId.Some? ==>
                && HasId(rest, rest[i].parentId.value)
                && rest[i].parentId.value in rank && rank[rest[i].parentId.value] < rank[rest[i].id]
    {
      assert rest[i] in nodes;
      var k :| 0 <= k < |nodes| && nodes[k] == rest[i];
      UpIsParent(nodes, k);
      if nodes[k].parentId.Some? {
        ParentRemains(nodes, root, k);
      }
    }
    assert Ranks(rest, rank);
  }

  lemma ParentRemains(nodes: seq<AgentNode>, root: string, k: nat)
    requires IsForest(nodes) && k < |nodes| && nodes[k].parentId.Some? && !InSubtree(nodes, root, nodes[k].id)
    ensures HasId(Remaining(nodes, root, nodes), nodes[k].parentId.value)
  {
    var rest, p := Remaining(nodes, root, nodes), nodes[k].parentId.value;
    RemainingMembers(nodes, root, nodes);
    UpIsParent(nodes, k);
    if InSubtree(nodes, root, p) {
      SubtreeChild(nodes, root, nodes[k].id);
    }
    assert HasId(nodes, p);
    var parent := nodes[Position(nodes, p)];
    assert parent in rest;
    var i :| 0 <= i < |rest| && rest[i] == parent;
    assert rest[i].id == p;
  }

  lemma SameIds(nodes: seq<AgentNode>, updated: AgentNode, id: string)
    requires HasId(nodes, updated.id)
    ensures HasId(nodes[Position(nodes, updated.id) := updated], id) <==> HasId(nodes, id)
  {
    var i := Position(nodes, updated.id);
    var after := nodes[i := updated];
    assert forall k :: 0 <= k < |nodes| ==> after[k].id == nodes[k].id;
    if HasId(nodes, id) {
      var k :| 0 <= k < |nodes| && nodes[k].id == id;
      assert after[k].id == id;
    }
    if HasId(after, id) {
      var k :| 0 <= k < |after| && after[k].id == id;
      assert nodes[k].id == id;
    }
  }

  /** With the subtree lifted above its new parent, the ranks fit again. */
  ghost function Lifted(nodes: seq<AgentNode>, rank: Rank, root: string, lift: nat): Rank {
    map id | id in rank :: if InSubtree(nodes, root, id) then rank[id] + lift else rank[id]
  }

  lemma MovedIsAcyclic(nodes: seq<AgentNode>, updated: AgentNode)
    requires IsForest(nodes) && HasId(nodes, updated.id) && OutcomeOfUpdate(nodes, updated) == Updated
    ensures Acyclic(nodes[Position(nodes, updated.id) := updated])
  {
    var at := Position(nodes, updated.id);
    var after := nodes[at := updated];
    var rank: Rank :| Ranks(nodes, rank);
    if updated.parentId == Up(nodes, updated.id) || updated.parentId.None? {
      assert Ranks(after, rank);
    } else {
      var p := updated.parentId.value;
      RankOf(nodes, rank, p);
      var rank' := Lifted(nodes, rank, updated.id, rank[p] + 1);
      assert Reaches(nodes, updated.id, updated.id, 0);
      forall i: nat | i < |after|
        ensures after[i].id in rank'
        ensures after[i].parentId.Some? ==>
                  after[i].parentId.value in rank' && rank'[after[i].parentId.value] < rank'[after[i].id]
      {
        if i != at {
          LiftedKeeps(nodes, rank, updated.id, rank[p] + 1, i);
        }
      }
      assert Ranks(after, rank');
    }
  }

  lemma LiftedKeeps(nodes: seq<AgentNode>, rank: Rank, root: string, lift: nat, i: nat)
    requires DistinctIds(nodes) && Ranks(nodes, rank) && i < |nodes| && nodes[i].id != root
    ensures
      var rank' := Lifted(nodes, rank, root, lift);
      && nodes[i].id in rank'
      && (nodes[i].parentId.Some? ==>
            nodes[i].parentId.value in rank' && rank'[nodes[i].parentId.value] < rank'[nodes[i].id])
  {
    UpIsParent(nodes, i);
    if nodes[i].parentId.Some? {
      if InSubtree(nodes, root, nodes[i].id) {
        SubtreeParent(nodes, root, nodes[i].id);
      } else if InSubtree(nodes, root, nodes[i].parentId.value) {
        SubtreeChild(nodes, root, nodes[i].id);
      }
    }
  }

  /** The way up from a node under the moved one is as before, so that a rank falls along it. */
  lemma {:induction false} StillReaches(nodes: seq<AgentNode>, updated: AgentNode, rank: Rank, id: string, n: nat)
    requires DistinctIds(nodes) && ParentsKnown(nodes) && HasId(nodes, updated.id) && HasId(nodes, id)
    requires Ranks(nodes[Position(nodes, updated.id) := updated], rank)
    requires Reaches(nodes, id, updated.id, n)
    ensures updated.id in rank && id in rank && rank[updated.id] <= rank[id]
    decreases n
  {
    var after := nodes[Position(nodes, updated.id) := updated];
    assert after[Position(nodes, id)].id == id;
    if id != updated.id {
      var p := Up(nodes, id).value;
      assert after[Position(nodes, id)].parentId == Some(p) && HasId(nodes, p);
      StillReaches(nodes, updated, rank, p, n - 1);
    }
  }

  /** An update is accepted exactly when the graph is still a forest after it. */
  lemma UpdateAcceptedIff(nodes: seq<AgentNode>, updated: AgentNode)
    requires IsForest(nodes) && HasId(nodes, updated.id)
    ensures OutcomeOfUpdate(nodes, updated) == Updated
       <==> IsForest(nodes[Position(nodes, updated.id) := updated])
  {
    var at := Position(nodes, updated.id);
    var after := nodes[at := updated];
    assert forall k :: 0 <= k < |nodes| ==> after[k].id == nodes[k].id;
    if OutcomeOfUpdate(nodes, updated) == Updated {
      MovedIsAcyclic(nodes, updated);
      forall i: nat | i < |after| && after[i].parentId.Some? ensures HasId(after, after[i].parentId.value) {
        assert nodes[at].parentId.Some? ==> HasId(nodes, nodes[at].parentId.value);
        SameIds(nodes, updated, after[i].parentId.value);
      }
    } else if IsForest(after) {
      var p := updated.parentId.value;
      assert after[at] == updated && HasId(after, p);
      SameIds(nodes, updated, p);
      var rank: Rank :| Ranks(after, rank);
      var n: nat :| Reaches(nodes, p, updated.id, n);
      StillReaches(nodes, updated, rank, p, n);
    }
  }

  /** Why an update is refused: its parent is not there, or it is there and the update closes a cycle. */
  lemma UpdateRefusedIff(nodes: seq<AgentNode>, updated: AgentNode)
    requires IsForest(nodes) && HasId(nodes, updated.id)
    ensures
      var after := nodes[Position(nodes, updated.id) := updated];
      && (OutcomeOfUpdate(nodes, updated) == NewParentMissing <==> !ParentsKnown(after))
      && (OutcomeOfUpdate(nodes, updated) == WouldCycle <==> ParentsKnown(after) && !Acyclic(after))
  {
    var at := Position(nodes, updated.id);
    var after := nodes[at := updated];
    UpdateAcceptedIff(nodes, updated);
    assert forall k :: 0 <= k < |nodes| ==> after[k].id == nodes[k].id;
    forall id ensures HasId(after, id) <==> HasId(nodes, id) {
      SameIds(nodes, updated, id);
    }
    assert after[at] == updated;
    assert forall i: nat :: i < |nodes| && i != at ==> after[i] == nodes[i];
  }

  class InMemoryAgentGraph {
    var nodes: seq<AgentNode>

    ghost predicate Valid()
      reads this
    {
      IsForest(nodes)
    }

    constructor ()
      ensures Valid() && nodes == []
    {
      nodes := [];
      new;
      WellFormedIsForest([]);
    }

    /** `dict.get(id)` */
    method Find(id: string) returns (index: Option<nat>)
      ensures index == if HasId(nodes, id) then Some(Position(nodes, id)) else None
    {
      for i := 0 to |nodes|
        invariant forall j :: 0 <= j < i ==> nodes[j].id != id
      {
        if nodes[i].id == id {
          return Some(i);
        }
      }
      return None;
    }

    method AddNode(node: AgentNode) returns (error: Option<AddError>)
      requires Valid()
      modifies this
      ensures Valid()
      ensures WellFormed(old(nodes)) ==> WellFormed(nodes)
      ensures error == AddOutcome(old(nodes), node)
      ensures nodes == if error.None? then old(nodes) + [node] else old(nodes)
    {
      var existing := Find(node.id);
      if existing.Some? {
        return Some(AlreadyExists);
      }
      if node.parentId.Some? {
        var parent := Find(node.parentId.value);
        if parent.None? {
          return Some(ParentMissing);
        }
      }
      ForestAppend(nodes, node);
      if WellFormed(nodes) {
        WellFormedAppend(nodes, node);
      }
      nodes := nodes + [node];
      return None;
    }

    /** The walk up the parent pointers; its guard against cycles never ends it. */
    method GetChainOfCommand(id: string) returns (chain: seq<AgentNode>)
      requires Valid()
      ensures IsChain(nodes, Some(id), chain)
    {
      chain := [];
      var visited: set<string> := {};
      var current := Some(id);
      ghost var rank: Rank :| Ranks(nodes, rank);
      assert forall rest: seq<AgentNode> :: chain + rest == rest;
      while current.Some? && current.value != "" && current.value !in visited
        invariant forall v :: v in visited ==> Above(nodes, rank, v, current)
        invariant forall rest :: IsChain(nodes, current, rest) ==> IsChain(nodes, Some(id), chain + rest)
        decreases if current.Some? && HasId(nodes, current.value) then rank[current.value] + 2
                  else if current.Some? then 1 else 0
      {
        var index := Find(current.value);
        if index.None? {
          break;
        }
        var node := nodes[index.value];
        WalkStep(nodes, rank, visited, current.value, node, id, chain);
        visited := visited + {current.value};
        chain := chain + [node];
        current := node.parentId;
      }
      assert IsChain(nodes, current, []);
      assert chain + [] == chain;
    }

    /** The identifiers of a node and its descendants, breadth first. */
    method CollectSubtree(root: string) returns (ids: seq<string>)
      requires Valid() && HasId(nodes, root)
      ensures forall id :: id in ids <==> InSubtree(nodes, root, id)
      ensures AllDistinct(ids)
    {
      ids := [];
      var queue := [root];
      BfsStart(nodes, root);
      while queue != []
        invariant Bfs(nodes, root, ids, queue)
        decreases |nodes| - |ids|
      {
        KnownAreFew(nodes, ids + queue);
        var id := queue[0];
        var children := ChildrenOf(id, ids + [id]);
        BfsStep(nodes, root, ids, queue, children);
        ids, queue := ids + [id], queue[1..] + children;
      }
      BfsEnd(nodes, root, ids);
    }

    /** The children that have not been collected yet. */
    method ChildrenOf(id: string, collected: seq<string>) returns (children: seq<string>)
      requires Valid()
      ensures AreChildren(nodes, id, collected, children)
    {
      children := [];
      for i := 0 to |nodes|
        invariant AllDistinct(children)
        invariant forall c :: c in children <==>
                    exists j :: 0 <= j < i && nodes[j].id == c && nodes[j].parentId == Some(id) && c !in collected
      {
        if nodes[i].parentId == Some(id) && nodes[i].id !in collected {
          AppendDistinct(children, nodes[i].id);
          children := children + [nodes[i].id];
        }
      }
    }

    /** Removes the node with everything under it. */
    method RemoveNode(id: string) returns (found: bool)
      requires Valid()
      modifies this
      ensures Valid()
      ensures found <==> HasId(old(nodes), id)
      ensures nodes == if found then Remaining(old(nodes), id, old(nodes)) else old(nodes)
    {
      var index := Find(id);
      if index.None? {
        return false;
      }
      var ids := CollectSubtree(id);
      var kept := [];
      for i := 0 to |nodes|
        invariant nodes == old(nodes) && kept == Remaining(nodes, id, nodes[..i])
      {
        assert nodes[..i + 1] == nodes[..i] + [nodes[i]];
        if nodes[i].id !in ids {
          kept := kept + [nodes[i]];
        }
      }
      assert nodes[..|nodes|] == nodes;
      RemainingIsForest(nodes, id);
      nodes := kept;
      return true;
    }

    /** Replaces the fields of a node; a new parent must be there and must not be under the node. */
    method UpdateNode(updated: AgentNode) returns (outcome: UpdateOutcome)
      requires Valid()
      modifies this
      ensures Valid()
      ensures outcome == OutcomeOfUpdate(old(nodes), updated)
      ensures nodes == if outcome == Updated then old(nodes)[Position(old(nodes), updated.id) := updated] else old(nodes)
    {
      var index := Find(updated.id);
      if index.None? {
        return NoSuchNode;
      }
      UpdateAcceptedIff(nodes, updated);
      if updated.parentId != nodes[index.value].parentId {
        if updated.parentId.Some? {
          var parent := Find(updated.parentId.value);
          if parent.None? {
            return NewParentMissing;
          }
          var subtree := CollectSubtree(updated.id);
          if updated.parentId.value in subtree {
            return WouldCycle;
          }
        }
      }
      nodes := nodes[index.value := updated];
      return Updated;
    }
  }

  class GraphBuilder {
    var queue: seq<AgentNode>

    constructor ()
      ensures queue == []
    {
      queue := [];
    }

    method AddRoot(id: string, payload: string, lifecycle: Option<Lifecycle>, runtimeConfig: Option<string>)
      modifies this
      ensures queue == old(queue) + [AgentNode(id, None, payload, if lifecycle.Some? then lifecycle.value else Supervised,
                                               runtimeConfig)]
    {
      var mode := if lifecycle.Some? then lifecycle.value else Supervised;
      queue := queue + [AgentNode(id, None, payload, mode, runtimeConfig)];
    }

    method AddChild(id: string, parentId: string, payload: string, lifecycle: Option<Lifecycle>,
                    runtimeConfig: Option<string>)
      modifies this
      ensures queue == old(queue) + [AgentNode(id, Some(parentId), payload,
                                               if lifecycle.Some? then lifecycle.value else Supervised, runtimeConfig)]
    {
      var mode := if lifecycle.Some? then lifecycle.value else Supervised;
      queue := queue + [AgentNode(id, Some(parentId), payload, mode, runtimeConfig)];
    }

    /** Queues the nodes of a nested description; an unknown lifecycle raises. */
    method AddFromDict(t: Spec, parent: Option<string>) returns (ok: bool)
      modifies this
      ensures ok <==> ValidSpec(t)
      ensures ok ==> queue == old(queue) + Flatten(t, parent)
      decreases t
    {
      var lifecycle := ParseLifecycle(t.lifecycle);
      if lifecycle.None? {
        return false;
      }
      if parent.None? {
        AddRoot(t.id, t.payload, lifecycle, t.runtimeConfig);
      } else {
        AddChild(t.id, parent.value, t.payload, lifecycle, t.runtimeConfig);
      }
      ghost var head := queue;
      assert t.children[..0] == [];
      for i := 0 to |t.children|
        invariant ValidSpecs(t.children[..i])
        invariant queue == head + FlattenAll(t.children[..i], t.id)
      {
        var added := AddFromDict(t.children[i], Some(t.id));
        SpecsAppend(t.children[..i], t.children[i], t.id);
        assert t.children[..i + 1] == t.children[..i] + [t.children[i]];
        if !added {
          ValidPrefix(t.children, i + 1);
          return false;
        }
      }
      assert t.children[..|t.children|] == t.children;
      return true;
    }

    /** Moves the queue into the store; the first refused node ends the build, with the queue kept. */
    method Build(store: InMemoryAgentGraph) returns (error: Option<AddError>)
      requires store.Valid()
      modifies this, store
      ensures store.Valid()
      ensures WellFormed(old(store.nodes)) ==> WellFormed(store.nodes)
      ensures
        var n := Accepted(old(store.nodes), old(queue));
        && store.nodes == old(store.nodes) + old(queue)[..n]
        && (error.None? <==> n == |old(queue)|)
        && error == (if n < |old(queue)| then AddOutcome(store.nodes, old(queue)[n]) else None)
        && queue == if error.None? then [] else old(queue)
    {
      ghost var before := store.nodes;
      for i := 0 to |queue|
        invariant queue == old(queue)
        invariant WellFormed(before) ==> WellFormed(store.nodes)
        invariant store.Valid() && BuiltSoFar(before, queue, i, store.nodes)
      {
        BuildRound(before, queue, i, store.nodes);
        error := store.AddNode(queue[i]);
        if error.Some? {
          return;
        }
      }
      assert queue[..|queue|] == queue;
      queue := [];
      error := None;
    }
  }

  /** The first `i` queued nodes are in the store, and the others are still to be judged. */
  predicate BuiltSoFar(before: seq<AgentNode>, queue: seq<AgentNode>, i: nat, nodes: seq<AgentNode>) {
    && i <= |queue|
    && nodes == before + queue[..i]
    && Accepted(before, queue) == i + Accepted(nodes, queue[i..])
  }

  /** One round of the build: the node is refused, and is the first one, or the build goes on. */
  lemma BuildRound(before: seq<AgentNode>, queue: seq<AgentNode>, i: nat, nodes: seq<AgentNode>)
    requires i < |queue| && BuiltSoFar(before, queue, i, nodes)
    ensures if AddOutcome(nodes, queue[i]).Some? then Accepted(before, queue) == i
            else BuiltSoFar(before, queue, i + 1, nodes + [queue[i]])
  {
    assert queue[i..][1..] == queue[i + 1..];
    assert before + queue[..i + 1] == before + queue[..i] + [queue[i]];
  }

  datatype BuildError = InvalidLifecycle | Refused(error: AddError)

  /** `GraphBuilder.from_dict`: an invalid description is found before the store is touched. */
  method FromDict(t: Spec, store: InMemoryAgentGraph) returns (error: Option<BuildError>)
    requires store.Valid()
    modifies store
    ensures store.Valid()
    ensures WellFormed(old(store.nodes)) ==> WellFormed(store.nodes)
    ensures !ValidSpec(t) ==> error == Some(InvalidLifecycle) && store.nodes == old(store.nodes)
    ensures ValidSpec(t) ==>
              && (error.None? <==> DistinctIds(old(store.nodes) + Flatten(t, None)))
              && (error.None? ==> store.nodes == old(store.nodes) + Flatten(t, None))
              && store.nodes == old(store.nodes) + Flatten(t, None)[..Accepted(old(store.nodes), Flatten(t, None))]
  {
    var builder := new GraphBuilder();
    var ok := builder.AddFromDict(t, None);
    if !ok {
      return Some(InvalidLifecycle);
    }
    BuildSucceedsIff(store.nodes, t);
    assert builder.queue == Flatten(t, None);
    var refused := builder.Build(store);
    error := if refused.Some? then Some(Refused(refused.value)) else None;
  }

  /** The nearest configured node of a chain. */
  function FirstConfig(chain: seq<AgentNode>): Option<string> {
    if chain == [] then None
    else if chain[0].runtimeConfig.Some? then chain[0].runtimeConfig
    else FirstConfig(chain[1..])
  }

  function OrDefault(config: Option<string>, default: string): string {
    if config.Some? then config.value else default
  }

  class GraphRuntimeResolver {
    const graph: InMemoryAgentGraph
    const default: string

    constructor (graph: InMemoryAgentGraph, default: string)
      ensures this.graph == graph && this.default == default
    {
      this.graph := graph;
      this.default := default;
    }

    method Resolve(agentId: string) returns (config: string)
      requires graph.Valid()
      ensures exists chain :: IsChain(graph.nodes, Some(agentId), chain) && config == OrDefault(FirstConfig(chain), default)
      ensures WellFormed(graph.nodes) ==> config == Resolved(graph.nodes, agentId, default)
    {
      var chain := graph.GetChainOfCommand(agentId);
      if WellFormed(graph.nodes) {
        ChainIsChain(graph.nodes, agentId);
        ChainIsUnique(graph.nodes, Some(agentId), chain, Chain(graph.nodes, agentId));
      }
      for i := 0 to |chain|
        invariant FirstConfig(chain) == FirstConfig(chain[i..])
      {
        if chain[i].runtimeConfig.Some? {
          return chain[i].runtimeConfig.value;
        }
      }
      return default;
    }
  }

  // ----- facts about the flat form -----

  lemma {:induction false} ValidAppend(ts: seq<Spec>, t: Spec)
    requires ValidSpecs(ts)
    ensures ValidSpecs(ts + [t]) <==> ValidSpec(t)
  {
    if ts == [] {
      assert ts + [t] == [t];
    } else {
      assert (ts + [t])[1..] == ts[1..] + [t];
      ValidAppend(ts[1..], t);
    }
  }

  lemma {:induction false} SpecsAppend(ts: seq<Spec>, t: Spec, parent: string)
    requires ValidSpecs(ts)
    ensures ValidSpecs(ts + [t]) <==> ValidSpec(t)
    ensures ValidSpec(t) ==> FlattenAll(ts + [t], parent) == FlattenAll(ts, parent) + Flatten(t, Some(parent))
  {
    ValidAppend(ts, t);
    if ValidSpec(t) {
      FlattenAppend(ts, t, parent);
    }
  }

  lemma {:induction false} FlattenAppend(ts: seq<Spec>, t: Spec, parent: string)
    requires ValidSpecs(ts) && ValidSpec(t) && ValidSpecs(ts + [t])
    ensures FlattenAll(ts + [t], parent) == FlattenAll(ts, parent) + Flatten(t, Some(parent))
  {
    if ts == [] {
      assert ts + [t] == [t] && [t][1..] == [];
    } else {
      var first, rest := Flatten(ts[0], Some(parent)), FlattenAll(ts[1..], parent);
      assert (ts + [t])[1..] == ts[1..] + [t];
      FlattenAppend(ts[1..], t, parent);
      assert first + (rest + Flatten(t, Some(parent))) == first + rest + Flatten(t, Some(parent));
    }
  }

  lemma {:induction false} ValidPrefix(ts: seq<Spec>, n: nat)
    requires n <= |ts|
    ensures ValidSpecs(ts) ==> ValidSpecs(ts[..n])
  {
    if n > 0 {
      assert ts[..n][1..] == ts[1..][..n - 1];
      ValidPrefix(ts[1..], n - 1);
    }
  }

  lemma BeforeAppend(nodes: seq<AgentNode>, more: seq<AgentNode>, n: nat, id: string)
    requires n <= |nodes|
    ensures Before(nodes + more, n, id) <==> Before(nodes, n, id)
  {
    assert forall k :: 0 <= k < |nodes| ==> (nodes + more)[k] == nodes[k];
  }

  lemma BeforePrepend(front: seq<AgentNode>, nodes: seq<AgentNode>, n: nat, id: string)
    requires Before(nodes, n, id)
    ensures Before(front + nodes, |front| + n, id)
  {
    var k :| 0 <= k < |nodes| && k < n && nodes[k].id == id;
    assert (front + nodes)[|front| + k].id == id;
  }

  lemma WellFormedAppend(nodes: seq<AgentNode>, node: AgentNode)
    requires WellFormed(nodes) && AddOutcome(nodes, node).None?
    ensures WellFormed(nodes + [node])
  {
    var all := nodes + [node];
    forall i: nat | i < |all| && all[i].parentId.Some? ensures Before(all, i, all[i].parentId.value) {
      BeforeAppend(nodes, [node], i, all[i].parentId.value);
    }
  }

  lemma PositionUnique(nodes: seq<AgentNode>, i: nat)
    requires DistinctIds(nodes) && i < |nodes|
    ensures HasId(nodes, nodes[i].id) && Position(nodes, nodes[i].id) == i
  {
  }

  /** The chain of a node is the node followed by the chain of its parent. */
  lemma ChainStep(nodes: seq<AgentNode>, i: nat)
    requires WellFormed(nodes) && i < |nodes| && nodes[i].id != ""
    ensures Chain(nodes, nodes[i].id)
         == [nodes[i]] + ChainAbove(nodes, nodes[i].parentId)
    ensures nodes[i].parentId.Some? ==>
              HasId(nodes, nodes[i].parentId.value) && Position(nodes, nodes[i].parentId.value) < i
  {
    PositionUnique(nodes, i);
    if nodes[i].parentId.Some? {
      assert Before(nodes, i, nodes[i].parentId.value);
    }
  }

  // ----- building -----

  /** Node `i` points to `parent` or to an earlier node. */
  predicate Anchored(nodes: seq<AgentNode>, i: nat, parent: string)
    requires i < |nodes|
  {
    && nodes[i].parentId.Some?
    && (nodes[i].parentId.value == parent || Before(nodes, i, nodes[i].parentId.value))
  }

  lemma {:induction false} FlattenAnchored(t: Spec, parent: Option<string>)
    requires ValidSpec(t)
    ensures forall i: nat :: 0 < i < |Flatten(t, parent)| ==>
              && Anchored(Flatten(t, parent), i, t.id)
              && Before(Flatten(t, parent), i, Flatten(t, parent)[i].parentId.value)
    decreases t, 0
  {
    FlattenAllAnchored(t.children, t.id);
    var nodes, rest := Flatten(t, parent), FlattenAll(t.children, t.id);
    forall i: nat | 0 < i < |nodes|
      ensures Anchored(nodes, i, t.id) && Before(nodes, i, nodes[i].parentId.value)
    {
      assert Anchored(rest, i - 1, t.id) && nodes[i] == rest[i - 1] && nodes[0].id == t.id;
      if rest[i - 1].parentId.value != t.id {
        BeforePrepend([nodes[0]], rest, i - 1, nodes[i].parentId.value);
      }
    }
  }

  lemma {:induction false} FlattenAllAnchored(ts: seq<Spec>, parent: string)
    requires ValidSpecs(ts)
    ensures forall i: nat :: i < |FlattenAll(ts, parent)| ==> Anchored(FlattenAll(ts, parent), i, parent)
    decreases ts
  {
    if ts != [] {
      FlattenAnchored(ts[0], Some(parent));
      FlattenAllAnchored(ts[1..], parent);
      var a, b := Flatten(ts[0], Some(parent)), FlattenAll(ts[1..], parent);
      forall i: nat | i < |a + b| ensures Anchored(a + b, i, parent) {
        if 0 < i < |a| {
          assert Anchored(a, i, ts[0].id);
          BeforeAppend(a, b, i, a[i].parentId.value);
        } else if i >= |a| {
          assert Anchored(b, i - |a|, parent) && (a + b)[i] == b[i - |a|];
          if b[i - |a|].parentId.value != parent {
            BeforePrepend(a, b, i - |a|, b[i - |a|].parentId.value);
          }
        }
      }
    }
  }

  /** The parent of every queued node is in the store or earlier in the queue. */
  predicate QueueReady(nodes: seq<AgentNode>, queue: seq<AgentNode>) {
    forall i: nat :: i < |queue| && queue[i].parentId.Some? ==>
      Before(nodes + queue, |nodes| + i, queue[i].parentId.value)
  }

  /** The queue is accepted in full exactly when no identifier repeats and every parent comes first. */
  lemma {:induction false} AcceptedAllIff(nodes: seq<AgentNode>, queue: seq<AgentNode>)
    requires DistinctIds(nodes)
    ensures Accepted(nodes, queue) == |queue| <==> DistinctIds(nodes + queue) && QueueReady(nodes, queue)
    decreases |queue|
  {
    if queue == [] {
      assert nodes + queue == nodes;
    } else {
      var all := nodes + queue;
      assert all == nodes + [queue[0]] + queue[1..];
      assert all[|nodes|] == queue[0];
      ReadyStep(nodes, queue);
      if HasId(nodes, queue[0].id) {
        var k :| 0 <= k < |nodes| && nodes[k].id == queue[0].id;
        assert all[k].id == all[|nodes|].id;
      } else if AddOutcome(nodes, queue[0]).None? {
        assert DistinctIds(nodes + [queue[0]]);
        AcceptedAllIff(nodes + [queue[0]], queue[1..]);
      }
    }
  }

  /** The first queued node has its parent in the store, and the rest is ready once it has been added. */
  lemma ReadyStep(nodes: seq<AgentNode>, queue: seq<AgentNode>)
    requires queue != []
    ensures QueueReady(nodes, queue)
       <==> (queue[0].parentId.Some? ==> HasId(nodes, queue[0].parentId.value))
            && QueueReady(nodes + [queue[0]], queue[1..])
  {
    var all := nodes + queue;
    assert all == nodes + [queue[0]] + queue[1..];
    if queue[0].parentId.Some? {
      BeforeAppend(nodes, queue, |nodes|, queue[0].parentId.value);
    }
    if QueueReady(nodes, queue) {
      forall i: nat | i < |queue[1..]| && queue[1..][i].parentId.Some?
        ensures Before(all, |nodes| + 1 + i, queue[1..][i].parentId.value)
      {
        assert queue[1..][i] == queue[i + 1];
      }
    }
    if QueueReady(nodes + [queue[0]], queue[1..]) && (queue[0].parentId.Some? ==> HasId(nodes, queue[0].parentId.value)) {
      forall i: nat | i < |queue| && queue[i].parentId.Some?
        ensures Before(all, |nodes| + i, queue[i].parentId.value)
      {
        if i > 0 {
          assert queue[1..][i - 1] == queue[i];
        }
      }
    }
  }

  /** Building a nested description into a store succeeds exactly when its identifiers are distinct and not
      yet in the store; a parent is never missing, because it is queued before its children. */
  lemma BuildSucceedsIff(nodes: seq<AgentNode>, t: Spec)
    requires DistinctIds(nodes) && ValidSpec(t)
    ensures Accepted(nodes, Flatten(t, None)) == |Flatten(t, None)| <==> DistinctIds(nodes + Flatten(t, None))
  {
    var queue := Flatten(t, None);
    AcceptedAllIff(nodes, queue);
    FlattenAnchored(t, None);
    forall i: nat | i < |queue| && queue[i].parentId.Some?
      ensures Before(nodes + queue, |nodes| + i, queue[i].parentId.value)
    {
      assert Anchored(queue, i, t.id);
      BeforePrepend(nodes, queue, i, queue[i].parentId.value);
    }
  }

  // ----- rebuilding the tree -----

  /** The description with the lifecycle written out. */
  function Normalize(t: Spec): Spec
    requires ValidSpec(t)
  {
    t.(lifecycle := Some(LifecycleName(ParseLifecycle(t.lifecycle).value)), children := NormalizeAll(t.children))
  }

  function NormalizeAll(ts: seq<Spec>): seq<Spec>
    requires ValidSpecs(ts)
  {
    if ts == [] then [] else [Normalize(ts[0])] + NormalizeAll(ts[1..])
  }

  /** The tree under position `i` of the flat form: the children of a node are the later nodes that point
      to it, in order. */
  function Rebuild(nodes: seq<AgentNode>, i: nat): Spec
    requires i < |nodes|
    decreases |nodes| - i, 1, 0
  {
    Spec(nodes[i].id, nodes[i].payload, Some(LifecycleName(nodes[i].lifecycle)), nodes[i].runtimeConfig,
         RebuildChildren(nodes, i, i + 1))
  }

  function RebuildChildren(nodes: seq<AgentNode>, i: nat, j: nat): seq<Spec>
    requires i < j <= |nodes|
    decreases |nodes| - i, 0, |nodes| - j
  {
    if j == |nodes| then []
    else
      (if nodes[j].parentId == Some(nodes[i].id) then [Rebuild(nodes, j)] else [])
      + RebuildChildren(nodes, i, j + 1)
  }

  /** No node from position `k` on points to `id`. */
  predicate NoneBelow(nodes: seq<AgentNode>, k: nat, id: string) {
    forall j :: k <= j < |nodes| ==> nodes[j].parentId != Some(id)
  }

  /** Positions `i` to `i + |part|` of the list hold `part`. */
  predicate Holds(nodes: seq<AgentNode>, i: nat, part: seq<AgentNode>) {
    i + |part| <= |nodes| && nodes[i..i + |part|] == part
  }

  lemma HoldsSplit(nodes: seq<AgentNode>, i: nat, a: seq<AgentNode>, b: seq<AgentNode>)
    requires Holds(nodes, i, a + b)
    ensures Holds(nodes, i, a) && Holds(nodes, i + |a|, b)
    ensures forall k :: 0 <= k < |a| ==> nodes[i + k] == a[k]
  {
    var part := nodes[i..i + |a + b|];
    assert nodes[i..i + |a|] == part[..|a|] == a;
    assert nodes[i + |a|..i + |a + b|] == part[|a|..] == b;
    forall k | 0 <= k < |a| ensures nodes[i + k] == a[k] {
      assert part[k] == nodes[i + k];
    }
  }

  lemma {:induction false} RebuildSkips(nodes: seq<AgentNode>, i: nat, j: nat, k: nat)
    requires i < j <= k <= |nodes|
    requires forall m :: j <= m < k ==> nodes[m].parentId != Some(nodes[i].id)
    ensures RebuildChildren(nodes, i, j) == RebuildChildren(nodes, i, k)
    decreases k - j
  {
    if j < k {
      RebuildSkips(nodes, i, j + 1, k);
    }
  }

  /** A node inside a flattened subtree, other than its root, points into that subtree. */
  lemma InnerParent(nodes: seq<AgentNode>, i: nat, t: Spec, parent: Option<string>, j: nat)
    requires ValidSpec(t) && Holds(nodes, i, Flatten(t, parent))
    requires i < j < i + |Flatten(t, parent)|
    ensures exists k :: i <= k < j && nodes[j].parentId == Some(nodes[k].id)
  {
    FlattenAnchored(t, parent);
    var part := Flatten(t, parent);
    assert part[j - i] == nodes[i..i + |part|][j - i] == nodes[j];
    assert Anchored(part, j - i, t.id);
    var m :| 0 <= m < |part| && m < j - i && part[m].id == nodes[j].parentId.value;
    assert part[m] == nodes[i..i + |part|][m] == nodes[i + m];
  }

  /** From position `end` on, no node points into positions `i` to `end`. */
  predicate Closed(nodes: seq<AgentNode>, i: nat, end: nat)
    requires end <= |nodes|
  {
    forall k :: i <= k < end ==> NoneBelow(nodes, end, nodes[k].id)
  }

  lemma {:induction false} RebuildSubtree(nodes: seq<AgentNode>, i: nat, t: Spec, parent: Option<string>, part: seq<AgentNode>)
    requires ValidSpec(t) && DistinctIds(nodes)
    requires part == Flatten(t, parent) && Holds(nodes, i, part)
    requires Closed(nodes, i, i + |part|)
    ensures Rebuild(nodes, i) == Normalize(t)
    decreases t, 0
  {
    var rest := FlattenAll(t.children, t.id);
    assert part == [part[0]] + rest;
    HoldsSplit(nodes, i, [part[0]], rest);
    assert nodes[i + 0] == part[0];
    assert NoneBelow(nodes, i + |part|, nodes[i].id);
    RebuildForest(nodes, i, i + 1, t.children, rest);
  }

  lemma {:induction false} RebuildForest(nodes: seq<AgentNode>, p: nat, i: nat, ts: seq<Spec>, part: seq<AgentNode>)
    requires ValidSpecs(ts) && DistinctIds(nodes)
    requires p < i <= |nodes|
    requires part == FlattenAll(ts, nodes[p].id) && Holds(nodes, i, part)
    requires NoneBelow(nodes, i + |part|, nodes[p].id)
    requires Closed(nodes, i, i + |part|)
    ensures RebuildChildren(nodes, p, i) == NormalizeAll(ts)
    decreases ts, 1
  {
    var id := nodes[p].id;
    if ts == [] {
      RebuildSkips(nodes, p, i, |nodes|);
    } else {
      var first, rest := Flatten(ts[0], Some(id)), FlattenAll(ts[1..], id);
      HoldsSplit(nodes, i, first, rest);
      FirstSubtreeClosed(nodes, p, i, ts, first, rest);
      RebuildSubtree(nodes, i, ts[0], Some(id), first);
      FirstChild(nodes, p, i, ts[0], first);
      assert part == first + rest && i + |part| == i + |first| + |rest|;
      RebuildForest(nodes, p, i + |first|, ts[1..], rest);
    }
  }

  /** The scan for children takes the root of the first subtree and skips the rest of that subtree. */
  lemma FirstChild(nodes: seq<AgentNode>, p: nat, i: nat, t: Spec, part: seq<AgentNode>)
    requires ValidSpec(t) && DistinctIds(nodes) && p < i <= |nodes|
    requires part == Flatten(t, Some(nodes[p].id)) && Holds(nodes, i, part)
    ensures RebuildChildren(nodes, p, i) == [Rebuild(nodes, i)] + RebuildChildren(nodes, p, i + |part|)
  {
    assert nodes[i] == nodes[i..i + |part|][0] == part[0];
    assert nodes[i].parentId == Some(nodes[p].id);
    SubtreePointsInside(nodes, p, i, t, part);
    RebuildSkips(nodes, p, i + 1, i + |part|);
    TakeChild(nodes, p, i);
  }

  lemma TakeChild(nodes: seq<AgentNode>, p: nat, i: nat)
    requires p < i < |nodes| && nodes[i].parentId == Some(nodes[p].id)
    ensures RebuildChildren(nodes, p, i) == [Rebuild(nodes, i)] + RebuildChildren(nodes, p, i + 1)
  {
  }

  lemma FirstSubtreeClosed(nodes: seq<AgentNode>, p: nat, i: nat, ts: seq<Spec>, first: seq<AgentNode>, rest: seq<AgentNode>)
    requires ts != [] && ValidSpecs(ts[1..]) && DistinctIds(nodes)
    requires p < i && i + |first| <= |nodes|
    requires rest == FlattenAll(ts[1..], nodes[p].id) && Holds(nodes, i + |first|, rest)
    requires Closed(nodes, i, i + |first| + |rest|)
    ensures Closed(nodes, i, i + |first|)
  {
    forall k | i <= k < i + |first| ensures NoneBelow(nodes, i + |first|, nodes[k].id) {
      LaterSiblingsElsewhere(nodes, p, i + |first|, ts[1..], k);
    }
  }

  lemma SubtreePointsInside(nodes: seq<AgentNode>, p: nat, i: nat, t: Spec, part: seq<AgentNode>)
    requires ValidSpec(t) && DistinctIds(nodes) && p < i <= |nodes|
    requires part == Flatten(t, Some(nodes[p].id)) && Holds(nodes, i, part)
    ensures forall m :: i < m < i + |part| ==> nodes[m].parentId != Some(nodes[p].id)
  {
    forall m | i < m < i + |part| ensures nodes[m].parentId != Some(nodes[p].id) {
      InnerParent(nodes, i, t, Some(nodes[p].id), m);
    }
  }

  /** Later siblings point to the common parent or among themselves, never into an earlier subtree. */
  lemma LaterSiblingsElsewhere(nodes: seq<AgentNode>, p: nat, mid: nat, ts: seq<Spec>, k: nat)
    requires ValidSpecs(ts) && DistinctIds(nodes)
    requires p < k < mid <= |nodes|
    requires Holds(nodes, mid, FlattenAll(ts, nodes[p].id))
    requires NoneBelow(nodes, mid + |FlattenAll(ts, nodes[p].id)|, nodes[k].id)
    ensures NoneBelow(nodes, mid, nodes[k].id)
  {
    var rest := FlattenAll(ts, nodes[p].id);
    FlattenAllAnchored(ts, nodes[p].id);
    forall j | mid <= j < mid + |rest| ensures nodes[j].parentId != Some(nodes[k].id) {
      assert rest[j - mid] == nodes[mid..mid + |rest|][j - mid] == nodes[j];
      assert Anchored(rest, j - mid, nodes[p].id);
      if nodes[j].parentId.value != nodes[p].id {
        var m :| 0 <= m < |rest| && m < j - mid && rest[m].id == nodes[j].parentId.value;
        assert rest[m] == nodes[mid..mid + |rest|][m] == nodes[mid + m];
      }
    }
  }

  /** Flattening loses nothing: with distinct identifiers the tree can be rebuilt from parent pointers. */
  lemma FlattenRoundTrip(t: Spec)
    requires ValidSpec(t) && DistinctIds(Flatten(t, None))
    ensures Rebuild(Flatten(t, None), 0) == Normalize(t)
  {
    var nodes := Flatten(t, None);
    assert nodes[0..|nodes|] == nodes;
    RebuildSubtree(nodes, 0, t, None, nodes);
  }

  /** The three names, and no others, are read as lifecycles; a missing one means ephemeral. */
  lemma LifecycleNames(name: Option<string>, l: Lifecycle)
    ensures ParseLifecycle(name) == Some(l) <==> name == Some(LifecycleName(l)) || (name.None? && l.Ephemeral?)
    ensures ParseLifecycle(Some("ephemeral")) == Some(Ephemeral)
    ensures ParseLifecycle(Some("supervised")) == Some(Supervised)
    ensures ParseLifecycle(Some("persistent")) == Some(Persistent)
  {
  }

  /** Every node of the description says its lifecycle. */
  predicate WrittenOut(t: Spec) {
    t.lifecycle.Some? && AllWrittenOut(t.children)
  }

  predicate AllWrittenOut(ts: seq<Spec>) {
    ts == [] || (WrittenOut(ts[0]) && AllWrittenOut(ts[1..]))
  }

  lemma {:induction false} NormalizeIsIdentityIff(t: Spec)
    requires ValidSpec(t)
    ensures Normalize(t) == t <==> WrittenOut(t)
    decreases t, 0
  {
    NormalizeAllIsIdentityIff(t.children);
    if t.lifecycle.Some? {
      LifecycleNames(t.lifecycle, ParseLifecycle(t.lifecycle).value);
    }
  }

  lemma {:induction false} NormalizeAllIsIdentityIff(ts: seq<Spec>)
    requires ValidSpecs(ts)
    ensures NormalizeAll(ts) == ts <==> AllWrittenOut(ts)
    decreases ts, 1
  {
    if ts != [] {
      NormalizeIsIdentityIff(ts[0]);
      NormalizeAllIsIdentityIff(ts[1..]);
      assert NormalizeAll(ts)[1..] == NormalizeAll(ts[1..]);
      assert ts == [ts[0]] + ts[1..];
    }
  }

  /** The tree itself comes back exactly when all its lifecycles are written out. */
  lemma FlattenInverseIff(t: Spec)
    requires ValidSpec(t) && DistinctIds(Flatten(t, None))
    ensures Rebuild(Flatten(t, None), 0) == t <==> WrittenOut(t)
  {
    FlattenRoundTrip(t);
    NormalizeIsIdentityIff(t);
  }

  // ----- inheritance -----

  /** Inheritance on the tree, from the top down: what the node with this identifier gets, if it is there. */
  function Effective(t: Spec, id: string, above: Option<string>): Option<Option<string>> {
    if t.id == id then Some(Own(t, above)) else EffectiveAmong(t.children, id, Own(t, above))
  }

  function EffectiveAmong(ts: seq<Spec>, id: string, above: Option<string>): Option<Option<string>> {
    if ts == [] then None
    else
      match Effective(ts[0], id, above)
      case Some(found) => Some(found)
      case None => EffectiveAmong(ts[1..], id, above)
  }

  lemma {:induction false} EffectiveFinds(t: Spec, parent: Option<string>, id: string, above: Option<string>)
    requires ValidSpec(t)
    ensures Effective(t, id, above).Some? <==> HasId(Flatten(t, parent), id)
    decreases t, 0
  {
    EffectiveAmongFinds(t.children, t.id, id, Own(t, above));
    var nodes, rest := Flatten(t, parent), FlattenAll(t.children, t.id);
    assert nodes[0].id == t.id;
    if HasId(rest, id) {
      var k :| 0 <= k < |rest| && rest[k].id == id;
      assert nodes[k + 1].id == id;
    }
    if HasId(nodes, id) && id != t.id {
      var k :| 0 <= k < |nodes| && nodes[k].id == id;
      assert rest[k - 1].id == id;
    }
  }

  lemma {:induction false} EffectiveAmongFinds(ts: seq<Spec>, parent: string, id: string, above: Option<string>)
    requires ValidSpecs(ts)
    ensures EffectiveAmong(ts, id, above).Some? <==> HasId(FlattenAll(ts, parent), id)
    decreases ts
  {
    if ts != [] {
      EffectiveFinds(ts[0], Some(parent), id, above);
      EffectiveAmongFinds(ts[1..], parent, id, above);
      var a, b := Flatten(ts[0], Some(parent)), FlattenAll(ts[1..], parent);
      assert forall k :: 0 <= k < |a| ==> (a + b)[k] == a[k];
      assert forall k :: 0 <= k < |b| ==> (a + b)[|a| + k] == b[k];
      if HasId(a + b, id) && !HasId(a, id) {
        var k :| 0 <= k < |a + b| && (a + b)[k].id == id;
        assert k >= |a| && b[k - |a|].id == id;
      }
    }
  }

  /** What a node inherits from above: the nearest configuration on the chain of its parent. */
  function FromAbove(nodes: seq<AgentNode>, parent: Option<string>): Option<string>
    requires WellFormed(nodes)
  {
    if parent.None? then None else FirstConfig(Chain(nodes, parent.value))
  }

  /** What a node passes on: its own configuration, or what it inherits. */
  function Own(t: Spec, above: Option<string>): Option<string> {
    if t.runtimeConfig.Some? then t.runtimeConfig else above
  }

  /** No agent with an empty identifier has or inherits a configuration. */
  predicate EmptyIdUnset(t: Spec, above: Option<string>) {
    (t.id == "" ==> Own(t, above).None?) && EmptyIdUnsetAmong(t.children, Own(t, above))
  }

  predicate EmptyIdUnsetAmong(ts: seq<Spec>, above: Option<string>) {
    ts == [] || (EmptyIdUnset(ts[0], above) && EmptyIdUnsetAmong(ts[1..], above))
  }

  /** The walk passes through a node as inheritance does; it stops at an empty identifier, where nothing
      may be lost. */
  lemma InheritStep(nodes: seq<AgentNode>, i: nat, t: Spec, parent: Option<string>)
    requires WellFormed(nodes) && i < |nodes|
    requires ParseLifecycle(t.lifecycle).Some? && nodes[i] == NodeOf(t, parent)
    requires t.id == "" ==> Own(t, FromAbove(nodes, parent)).None?
    ensures FirstConfig(Chain(nodes, t.id)) == Own(t, FromAbove(nodes, parent))
  {
    if t.id != "" {
      ChainStep(nodes, i);
      var up := ChainAbove(nodes, parent);
      assert ([nodes[i]] + up)[1..] == up;
    }
  }

  lemma {:induction false} ChainIsEffective(nodes: seq<AgentNode>, i: nat, t: Spec, parent: Option<string>, id: string)
    requires WellFormed(nodes) && ValidSpec(t) && EmptyIdUnset(t, FromAbove(nodes, parent))
    requires Holds(nodes, i, Flatten(t, parent))
    ensures var found := Effective(t, id, FromAbove(nodes, parent));
            found.Some? ==> FirstConfig(Chain(nodes, id)) == found.value
    decreases t, 0
  {
    var rest := FlattenAll(t.children, t.id);
    HoldsSplit(nodes, i, [NodeOf(t, parent)], rest);
    assert nodes[i + 0] == NodeOf(t, parent);
    InheritStep(nodes, i, t, parent);
    ChainIsEffectiveAmong(nodes, i + 1, t.children, t.id, id);
  }

  lemma {:induction false} ChainIsEffectiveAmong(nodes: seq<AgentNode>, i: nat, ts: seq<Spec>, parent: string, id: string)
    requires WellFormed(nodes) && ValidSpecs(ts) && EmptyIdUnsetAmong(ts, FromAbove(nodes, Some(parent)))
    requires Holds(nodes, i, FlattenAll(ts, parent))
    ensures var found := EffectiveAmong(ts, id, FromAbove(nodes, Some(parent)));
            found.Some? ==> FirstConfig(Chain(nodes, id)) == found.value
    decreases ts
  {
    if ts != [] {
      var first, rest := Flatten(ts[0], Some(parent)), FlattenAll(ts[1..], parent);
      HoldsSplit(nodes, i, first, rest);
      ChainIsEffective(nodes, i, ts[0], Some(parent), id);
      ChainIsEffectiveAmong(nodes, i + |first|, ts[1..], parent, id);
    }
  }

  /** What inheritance on the tree gives to an agent; an unknown agent gets the default. */
  function TopDown(t: Spec, id: string, default: string): string {
    match Effective(t, id, None)
    case Some(config) => OrDefault(config, default)
    case None => default
  }

  /** What the resolver finds on the flat form of the tree. */
  function Resolved(nodes: seq<AgentNode>, id: string, default: string): string
    requires WellFormed(nodes)
  {
    OrDefault(FirstConfig(Chain(nodes, id)), default)
  }

  lemma FlattenWellFormed(t: Spec)
    requires ValidSpec(t) && DistinctIds(Flatten(t, None))
    ensures WellFormed(Flatten(t, None))
  {
    var nodes := Flatten(t, None);
    FlattenAnchored(t, None);
    forall i: nat | i < |nodes| && nodes[i].parentId.Some? ensures Before(nodes, i, nodes[i].parentId.value) {
      assert i > 0 ==> Anchored(nodes, i, t.id);
    }
  }

  /** Walking up the parent pointers of the flat form finds the configuration that top-down inheritance on
      the tree assigns, for every agent and also for unknown ones. */
  lemma ResolveIsTopDown(t: Spec, id: string, default: string)
    requires ValidSpec(t) && DistinctIds(Flatten(t, None)) && EmptyIdUnset(t, None)
    ensures WellFormed(Flatten(t, None))
    ensures Resolved(Flatten(t, None), id, default) == TopDown(t, id, default)
  {
    var nodes := Flatten(t, None);
    FlattenWellFormed(t);
    assert nodes[0..|nodes|] == nodes;
    ChainIsEffective(nodes, 0, t, None, id);
    EffectiveFinds(t, None, id, None);
  }

  lemma DistinctSplit(a: seq<AgentNode>, b: seq<AgentNode>, id: string)
    requires DistinctIds(a + b)
    ensures DistinctIds(a) && DistinctIds(b)
    ensures !(HasId(a, id) && HasId(b, id))
  {
    var all := a + b;
    assert forall k :: 0 <= k < |a| ==> all[k] == a[k];
    assert forall k :: 0 <= k < |b| ==> all[|a| + k] == b[k];
  }

  /** With distinct identifiers, a configuration at the empty identifier is what inheritance assigns there. */
  lemma {:induction false} EmptyIdSet(t: Spec, parent: Option<string>, above: Option<string>)
    requires ValidSpec(t) && DistinctIds(Flatten(t, parent)) && !EmptyIdUnset(t, above)
    ensures Effective(t, "", above).Some? && Effective(t, "", above).value.Some?
    decreases t, 0
  {
    var rest := FlattenAll(t.children, t.id);
    DistinctSplit([NodeOf(t, parent)], rest, "");
    if !(t.id == "" && Own(t, above).Some?) {
      EmptyIdSetAmong(t.children, t.id, Own(t, above));
      EffectiveAmongFinds(t.children, t.id, "", Own(t, above));
      assert [NodeOf(t, parent)][0].id == t.id;
    }
  }

  lemma {:induction false} EmptyIdSetAmong(ts: seq<Spec>, parent: string, above: Option<string>)
    requires ValidSpecs(ts) && DistinctIds(FlattenAll(ts, parent)) && !EmptyIdUnsetAmong(ts, above)
    ensures EffectiveAmong(ts, "", above).Some? && EffectiveAmong(ts, "", above).value.Some?
    decreases ts
  {
    DistinctSplit(Flatten(ts[0], Some(parent)), FlattenAll(ts[1..], parent), "");
    if EmptyIdUnset(ts[0], above) {
      EmptyIdSetAmong(ts[1..], parent, above);
      EffectiveFinds(ts[0], Some(parent), "", above);
      EffectiveAmongFinds(ts[1..], parent, "", above);
    } else {
      EmptyIdSet(ts[0], Some(parent), above);
    }
  }

  /** The resolver implements inheritance, for every agent and every default, exactly when no agent with an
      empty identifier has or inherits a configuration: the walk takes that identifier for the end of the
      chain. */
  lemma ResolveIsTopDownIff(t: Spec)
    requires ValidSpec(t) && DistinctIds(Flatten(t, None))
    ensures WellFormed(Flatten(t, None))
    ensures (forall id, default :: Resolved(Flatten(t, None), id, default) == TopDown(t, id, default))
       <==> EmptyIdUnset(t, None)
  {
    FlattenWellFormed(t);
    if EmptyIdUnset(t, None) {
      forall id, default ensures Resolved(Flatten(t, None), id, default) == TopDown(t, id, default) {
        ResolveIsTopDown(t, id, default);
      }
    } else {
      EmptyIdSet(t, None, None);
      var config := Effective(t, "", None).value.value;
      var other := config + "'";
      assert Resolved(Flatten(t, None), "", other) == other != TopDown(t, "", other);
    }
  }

  /** A configured root with an empty identifier passes nothing on. */
  lemma EmptyIdStopsInheritance(config: string, default: string)
    ensures
      var t := Spec("", "", None, Some(config), [Spec("a", "", None, None, [])]);
      && ValidSpec(t) && WellFormed(Flatten(t, None))
      && TopDown(t, "a", default) == config
      && Resolved(Flatten(t, None), "a", default) == default
  {
    var leaf := Spec("a", "", None, None, []);
    var t := Spec("", "", None, Some(config), [leaf]);
    assert t.children[1..] == [];
    assert ValidSpec(leaf);
    var nodes := [NodeOf(t, None), NodeOf(leaf, Some(""))];
    assert FlattenAll(t.children, "") == Flatten(leaf, Some("")) + FlattenAll(t.children[1..], "");
    assert Flatten(t, None) == nodes;
    assert Before(nodes, 1, "") by {
      assert nodes[0].id == "";
    }
    assert nodes[1].id == "a";
    PositionUnique(nodes, 1);
    assert Chain(nodes, "a") == ChainAt(nodes, 1) == [nodes[1]];
    assert [nodes[1]][1..] == [] && FirstConfig([]) == None;
    assert Effective(leaf, "a", Some(config)) == Some(Some(config));
    assert t.id != "a" && Own(t, None) == Some(config);
    assert Effective(t, "a", None) == EffectiveAmong(t.children, "a", Some(config));
  }
}
