// What every single operation keeps about scheduling: dependency closure, mutual
// exclusion of conflicting writers, and the immutability of accepted work.
module GoalSchedule {
  import opened Base
  import opened GoalModel
  import opened GoalOps

  // The node holds, or is about to hold, its write scope.
  predicate Claims(node: Node) {
    node.status == Dispatching || IsActive(node)
  }

  ghost predicate DependencyClosed(nodes: map<NodeId, Node>) {
    forall id :: id in nodes && (Claims(nodes[id]) || nodes[id].status == Completed) ==>
      DependenciesCompleted(nodes[id], nodes)
  }

  ghost predicate Exclusive(nodes: map<NodeId, Node>) {
    && (forall x, y :: x in nodes && y in nodes && x != y && Claims(nodes[x]) && Claims(nodes[y]) ==>
         !NodesConflict(nodes[x], nodes[y]))
    && (forall x, y :: x in nodes && y in nodes && nodes[x].status == Dispatching && nodes[y].status == Dispatching ==>
         x == y)
  }

  // Nodes are cancelled together with their goal, and a cancelled goal has no live node.
  ghost predicate CancelledTogether(g: Goal) {
    && (forall id :: id in g.nodes && g.nodes[id].status == Cancelled ==> g.status == GoalCancelled)
    && (g.status == GoalCancelled ==> forall id :: id in g.nodes ==> g.nodes[id].status in {Completed, Failed, Cancelled})
  }

  ghost predicate SameScope(a: Node, b: Node) {
    && a.kind == b.kind && a.readOnly == b.readOnly && a.writePaths == b.writePaths
    && a.inputs == b.inputs && a.expectedArtifacts == b.expectedArtifacts
  }

  // A pending node passed the guards and took its scope while nothing else moved.
  ghost predicate Launched(g: map<NodeId, Node>, h: map<NodeId, Node>, id: NodeId)
    requires id in g
  {
    && g[id].status == Pending
    && DependenciesCompleted(g[id], g)
    && !HasStatus(g, Dispatching)
    && !ConflictsWithActive(g[id], g)
    && forall y :: y in g && y != id ==> y in h && h[y] == g[y]
  }

  // A dispatch that waits for its agent under this token.
  ghost predicate HoldsToken(nodes: map<NodeId, Node>, id: NodeId, token: string) {
    && id in nodes && nodes[id].kind == Agent && nodes[id].status == Dispatching
    && nodes[id].assignment.Some? && nodes[id].assignment.value.token == token
  }

  // The effect any operation may have on the scheduling state.
  ghost predicate ScheduleStep(g: map<NodeId, Node>, h: map<NodeId, Node>) {
    && (forall id :: id in g ==> id in h && SameScope(g[id], h[id]))
    && (forall id :: id in h && id !in g ==> h[id].status == Pending)
    && (forall id :: id in g && g[id].status == Completed ==> h[id] == g[id])
    && (forall id :: id in g && Claims(h[id]) ==>
         h[id].dependsOn == g[id].dependsOn && (Claims(g[id]) || Launched(g, h, id)))
    && (forall id :: id in g && h[id].status == Dispatching ==> g[id].status == Dispatching || Launched(g, h, id))
    && (forall id :: id in g && h[id].status == Completed ==>
         h[id].dependsOn == g[id].dependsOn && g[id].status in {Running, Completed})
  }

  // The guards a node passes before it takes its scope.
  ghost predicate MayLaunch(g: map<NodeId, Node>, node: Node) {
    node.status == Pending && DependenciesCompleted(node, g) && !HasStatus(g, Dispatching) && !ConflictsWithActive(node, g)
  }

  // A change of one node that scheduling allows.
  ghost predicate NodeMoves(g: map<NodeId, Node>, id: NodeId, next: Node)
    requires id in g
  {
    var node := g[id];
    && SameScope(node, next)
    && node.status != Completed
    && (Claims(next) ==> next.dependsOn == node.dependsOn && (Claims(node) || MayLaunch(g, node)))
    && (next.status == Dispatching ==> node.status == Dispatching || MayLaunch(g, node))
    && (next.status == Completed ==> next.dependsOn == node.dependsOn && node.status == Running)
  }

  lemma OneNodeSchedules(g: map<NodeId, Node>, id: NodeId, next: Node)
    requires id in g && NodeMoves(g, id, next)
    ensures ScheduleStep(g, g[id := next])
  {
  }

  predicate ChangesOneNode(c: Command) {
    !(c.Add? || c.Verify? || c.Pause? || c.Resume? || c.Cancel? || c.Finish?)
  }

  // The operation touched one node only, and moved it in an allowed way.
  ghost predicate MovesOne(g: Goal, h: Goal, id: NodeId) {
    && id in g.nodes && id in h.nodes && h.nodes == g.nodes[id := h.nodes[id]]
    && NodeMoves(g.nodes, id, h.nodes[id])
    && h.status == g.status
    && h.nodes[id].status != Cancelled
    && (g.nodes[id].status in {Completed, Failed, Cancelled} ==> g.status == GoalOpen)
  }

  lemma DispatchMoves(g: Goal, c: Command, now: Time)
    requires c.PrepareAgent? || c.Start? || c.AbortAgent? || c.Edit?
    requires Apply(g, c, now).Ok?
    ensures MovesOne(g, Apply(g, c, now).value, c.id)
  {
  }

  lemma WaitMovesNode(g: Goal, c: Command, now: Time)
    requires c.PrepareWait? || c.ActivateWait? || c.AbortWait? || c.Wake?
    requires Apply(g, c, now).Ok? && Apply(g, c, now).value != g
    ensures MovesOne(g, Apply(g, c, now).value, c.id)
  {
  }

  lemma ResultMoves(g: Goal, c: Command, now: Time)
    requires c.Complete? || c.Fail? || c.Retry?
    requires Apply(g, c, now).Ok?
    ensures MovesOne(g, Apply(g, c, now).value, c.id)
  {
  }

  lemma NodeCommandMoves(g: Goal, c: Command, now: Time)
    requires ChangesOneNode(c) && Apply(g, c, now).Ok? && Apply(g, c, now).value != g
    ensures MovesOne(g, Apply(g, c, now).value, c.id)
  {
    if c.PrepareWait? || c.ActivateWait? || c.AbortWait? || c.Wake? {
      WaitMovesNode(g, c, now);
    } else if c.Complete? || c.Fail? || c.Retry? {
      ResultMoves(g, c, now);
    } else {
      DispatchMoves(g, c, now);
    }
  }

  // Insertion adds one pending node and, at most, one dependency of one pending node.
  ghost predicate Inserts(g: map<NodeId, Node>, h: map<NodeId, Node>, c: Command)
    requires c.Add?
  {
    var target := Target(c.before);
    && c.id !in g && h.Keys == g.Keys + {c.id}
    && h[c.id] == NewNode(c.title, c.kind, c.dependsOn, c.acceptance, c.readOnly, c.writePaths, c.inputs, c.expectedArtifacts)
    && (target.Some? ==> target.value in g && g[target.value].status == Pending)
    && (forall y :: y in g ==>
         h[y] == if target == Some(y) then g[y].(dependsOn := Dedup(g[y].dependsOn + [c.id])) else g[y])
  }

  lemma AddInserts(g: Goal, c: Command, now: Time)
    requires c.Add? && AddNode(g, c, now).Ok?
    ensures var h := AddNode(g, c, now).value;
            Inserts(g.nodes, h.nodes, c) && h.status == g.status == GoalOpen && h.verification.None?
  {
  }

  lemma InsertSchedules(g: map<NodeId, Node>, h: map<NodeId, Node>, c: Command)
    requires c.Add? && Inserts(g, h, c)
    ensures ScheduleStep(g, h)
  {
    forall id | id in g
      ensures id in h && SameScope(g[id], h[id]) && h[id].status == g[id].status
      ensures g[id].status != Pending ==> h[id] == g[id]
    {
      assert Target(c.before) == Some(id) ==> h[id] == g[id].(dependsOn := Dedup(g[id].dependsOn + [c.id]));
    }
    PendingGrowthSchedules(g, h);
  }

  // Only pending nodes changed, and they stay pending.
  lemma PendingGrowthSchedules(g: map<NodeId, Node>, h: map<NodeId, Node>)
    requires forall id :: id in g ==> id in h && SameScope(g[id], h[id]) && h[id].status == g[id].status
    requires forall id :: id in g && g[id].status != Pending ==> h[id] == g[id]
    requires forall id :: id in h && id !in g ==> h[id].status == Pending
    ensures ScheduleStep(g, h)
  {
  }

  lemma ApplySchedules(g: Goal, c: Command, now: Time)
    requires Apply(g, c, now).Ok?
    ensures ScheduleStep(g.nodes, Apply(g, c, now).value.nodes)
  {
    var h := Apply(g, c, now).value;
    if h == g {
    } else if ChangesOneNode(c) {
      NodeCommandMoves(g, c, now);
      OneNodeSchedules(g.nodes, c.id, h.nodes[c.id]);
    } else if c.Add? {
      AddInserts(g, c, now);
      InsertSchedules(g.nodes, h.nodes, c);
    } else {
      GoalCommandSchedules(g, c, now);
    }
  }

  lemma GoalCommandSchedules(g: Goal, c: Command, now: Time)
    requires c.Verify? || c.Pause? || c.Resume? || c.Cancel? || c.Finish?
    requires Apply(g, c, now).Ok?
    ensures ScheduleStep(g.nodes, Apply(g, c, now).value.nodes)
  {
    if c.Cancel? {
      CancelSchedules(g.nodes, Apply(g, c, now).value.nodes);
    } else {
      assert Apply(g, c, now).value.nodes == g.nodes;
      StandingStillSchedules(g.nodes);
    }
  }

  lemma StandingStillSchedules(g: map<NodeId, Node>)
    ensures ScheduleStep(g, g)
  {
  }

  lemma CancelSchedules(g: map<NodeId, Node>, h: map<NodeId, Node>)
    requires h == map id | id in g :: CancelledNode(g[id])
    ensures ScheduleStep(g, h)
  {
    forall id | id in g
      ensures id in h && SameScope(g[id], h[id]) && !Claims(h[id])
      ensures h[id].status == Completed <==> g[id].status == Completed
      ensures g[id].status == Completed ==> h[id] == g[id]
      ensures h[id].dependsOn == g[id].dependsOn
    {
      assert h[id] == CancelledNode(g[id]);
      CancelReleases(g[id]);
    }
  }

  lemma CancelReleases(node: Node)
    ensures SameScope(node, CancelledNode(node)) && !Claims(CancelledNode(node))
    ensures CancelledNode(node).dependsOn == node.dependsOn
    ensures CancelledNode(node).status == Completed <==> node.status == Completed
    ensures node.status == Completed ==> CancelledNode(node) == node
  {
  }

  lemma GoalCommandCancelsTogether(g: Goal, c: Command, now: Time)
    requires c.Verify? || c.Pause? || c.Resume? || c.Cancel? || c.Finish?
    requires Apply(g, c, now).Ok? && CancelledTogether(g)
    ensures CancelledTogether(Apply(g, c, now).value)
  {
  }

  lemma AddCancelsTogether(g: Goal, h: Goal, c: Command)
    requires c.Add? && Inserts(g.nodes, h.nodes, c) && h.status == g.status == GoalOpen && CancelledTogether(g)
    ensures CancelledTogether(h)
  {
  }

  lemma ApplyCancelsTogether(g: Goal, c: Command, now: Time)
    requires Apply(g, c, now).Ok? && CancelledTogether(g)
    ensures CancelledTogether(Apply(g, c, now).value)
  {
    var h := Apply(g, c, now).value;
    if h == g {
    } else if ChangesOneNode(c) {
      NodeCommandMoves(g, c, now);
    } else if c.Add? {
      AddInserts(g, c, now);
      AddCancelsTogether(g, h, c);
    } else {
      GoalCommandCancelsTogether(g, c, now);
    }
  }

  lemma ClosureKept(g: map<NodeId, Node>, h: map<NodeId, Node>)
    requires DependencyClosed(g) && ScheduleStep(g, h)
    ensures DependencyClosed(h)
  {
    forall id | id in h && (Claims(h[id]) || h[id].status == Completed)
      ensures DependenciesCompleted(h[id], h)
    {
      assert DependenciesCompleted(g[id], g);
    }
  }

  lemma PairStaysApart(g: map<NodeId, Node>, h: map<NodeId, Node>, x: NodeId, y: NodeId)
    requires Exclusive(g) && ScheduleStep(g, h)
    requires x in h && y in h && x != y && Claims(h[x]) && Claims(h[y])
    ensures x in g && y in g && !NodesConflict(g[x], g[y])
  {
    if !Claims(g[x]) {
      assert Launched(g, h, x) && IsActive(g[y]);
    } else if !Claims(g[y]) {
      assert Launched(g, h, y) && IsActive(g[x]);
      ConflictIsSymmetric(g[x], g[y]);
    }
  }

  lemma ExclusionKept(g: map<NodeId, Node>, h: map<NodeId, Node>)
    requires Exclusive(g) && ScheduleStep(g, h)
    ensures Exclusive(h)
  {
    forall x, y | x in h && y in h && x != y && Claims(h[x]) && Claims(h[y])
      ensures !NodesConflict(h[x], h[y]) && !(h[x].status == Dispatching && h[y].status == Dispatching)
    {
      PairStaysApart(g, h, x, y);
      SameScopeSameConflict(g[x], g[y], h[x], h[y]);
    }
  }

  lemma SameScopeSameConflict(a: Node, b: Node, c: Node, d: Node)
    requires SameScope(a, c) && SameScope(b, d)
    ensures NodesConflict(a, b) == NodesConflict(c, d)
  {
  }
}
