// What conflicts between nodes mean for the files they may write, without reference to how
// conflicts are computed.
module GoalScopes {
  import opened Base
  import opened Paths
  import opened GoalModel
  import opened GoalSchedule
  import opened GoalRuns
  import opened GoalFrontier

  // Two writers both say where they write, in paths of one kind, and no file lies under a path
  // of each.
  ghost predicate Apart(a: Node, b: Node) {
    && a.writePaths != [] && b.writePaths != []
    && forall p, q :: p in a.writePaths && q in b.writePaths ==>
         p.absolute == q.absolute && forall file :: !(Below(file, p) && Below(file, q))
  }

  // One of them only reads, or they are apart.
  ghost predicate MayRunTogether(a: Node, b: Node) {
    a.readOnly || b.readOnly || Apart(a, b)
  }

  lemma ConflictIff(a: Node, b: Node)
    ensures NodesConflict(a, b) <==> !MayRunTogether(a, b)
  {
    forall p, q | p in a.writePaths && q in b.writePaths
      ensures !Overlap(p, q) <==> p.absolute == q.absolute && forall file :: !(Below(file, p) && Below(file, q))
    {
      if p.absolute == q.absolute {
        OverlapIffSharedFile(p, q);
      }
    }
  }

  // In no history do two nodes that are dispatching, running or waiting write to a common file,
  // nor does one of them write to places that are not known to be apart from the other's; and no
  // two of them are dispatching.
  lemma ActiveWritersAreApart(history: seq<Goal>, n: nat, x: NodeId, y: NodeId)
    requires IsHistory(history) && n < |history|
    requires x in history[n].nodes && y in history[n].nodes && x != y
    requires history[n].nodes[x].status in {Dispatching, Running, Waiting}
    requires history[n].nodes[y].status in {Dispatching, Running, Waiting}
    ensures MayRunTogether(history[n].nodes[x], history[n].nodes[y])
    ensures history[n].nodes[x].status != Dispatching || history[n].nodes[y].status != Dispatching
  {
    HistoryInv(history, n);
    var nodes := history[n].nodes;
    assert Claims(nodes[x]) && Claims(nodes[y]);
    ConflictIff(nodes[x], nodes[y]);
  }

  // In no history has a node been started, let alone completed, before its dependencies were.
  lemma DependenciesCameFirst(history: seq<Goal>, n: nat, id: NodeId, d: NodeId)
    requires IsHistory(history) && n < |history| && id in history[n].nodes
    requires history[n].nodes[id].status in {Dispatching, Running, Waiting, Completed} && d in history[n].nodes[id].dependsOn
    ensures d in history[n].nodes && history[n].nodes[d].status == Completed
  {
    HistoryInv(history, n);
    var nodes := history[n].nodes;
    assert Claims(nodes[id]) || nodes[id].status == Completed;
    assert DependenciesCompleted(nodes[id], nodes);
  }

  // Nothing that is under way, and nothing chosen before, stands in the way of the k-th ready node.
  ghost predicate IsFree(nodes: map<NodeId, Node>, raw: seq<NodeId>, selected: seq<NodeId>, k: nat)
    requires k < |raw|
  {
    && raw[k] in nodes
    && (forall y :: y in nodes && nodes[y].status in {Running, Waiting} ==> MayRunTogether(nodes[raw[k]], nodes[y]))
    && (forall c :: c in selected && c in raw[..k] && c in nodes ==> MayRunTogether(nodes[raw[k]], nodes[c]))
  }

  lemma NothingActiveConflicts(node: Node, nodes: map<NodeId, Node>)
    ensures !ConflictsWithActive(node, nodes) <==>
      forall y :: y in nodes && nodes[y].status in {Running, Waiting} ==> MayRunTogether(node, nodes[y])
  {
    forall y | y in nodes ensures NodesConflict(node, nodes[y]) <==> !MayRunTogether(node, nodes[y]) {
      ConflictIff(node, nodes[y]);
    }
  }

  // The selection of ready nodes takes every node that is free when its turn comes, and no other.
  lemma SelectedIffFree(nodes: map<NodeId, Node>, raw: seq<NodeId>, selected: seq<NodeId>, k: nat)
    requires Frontier(nodes, raw, selected) && Compatible(nodes, selected) && k < |raw|
    requires forall i, j :: 0 <= i < j < |raw| ==> raw[i] != raw[j]
    ensures raw[k] in selected <==> IsFree(nodes, raw, selected, k)
  {
    if raw[k] in selected {
      NothingActiveConflicts(nodes[raw[k]], nodes);
      forall c | c in selected && c in raw[..k] && c in nodes ensures MayRunTogether(nodes[raw[k]], nodes[c]) {
        ConflictIff(nodes[raw[k]], nodes[c]);
      }
    } else {
      assert LeftOut(nodes, raw, selected, k);
      NothingActiveConflicts(nodes[raw[k]], nodes);
      if !ConflictsWithActive(nodes[raw[k]], nodes) {
        var c :| c in selected && c in raw[..k] && c in nodes && NodesConflict(nodes[raw[k]], nodes[c]);
        ConflictIff(nodes[raw[k]], nodes[c]);
      }
    }
  }

  // A ready node that only reads is always selected.
  lemma ReadersAreSelected(nodes: map<NodeId, Node>, raw: seq<NodeId>, selected: seq<NodeId>, k: nat)
    requires Frontier(nodes, raw, selected) && Compatible(nodes, selected) && k < |raw|
    requires forall i, j :: 0 <= i < j < |raw| ==> raw[i] != raw[j]
    requires raw[k] in nodes && nodes[raw[k]].readOnly
    ensures raw[k] in selected
  {
    SelectedIffFree(nodes, raw, selected, k);
  }
}
