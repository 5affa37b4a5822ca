// Which operations a commit can still refuse after their guards have passed: an exact
// condition on the arguments for every operation.
module GoalValidity {
  import opened Base
  import Graph
  import opened GoalModel
  import opened GoalOps
  import opened GoalSchedule
  import opened GoalLog
  import opened GoalRuns

  // The arguments are well formed, an edit names existing dependencies and closes no
  // cycle, an insertion closes no cycle, and a completed node holds no prepared wait.
  ghost predicate Acceptable(g: Goal, c: Command) {
    match c
    case Edit(id, title, dependsOn, acceptance) =>
      && NonBlank(title) && AllNonBlank(acceptance)
      && (forall d :: d in dependsOn ==> d in g.nodes)
      && (id in g.nodes ==> forall name :: name in g.nodes[id].inputs ==> g.nodes[id].inputs[name] in dependsOn)
      && !ClosesCycle(g, dependsOn, Some(id))
    case Add(_, _, _, dependsOn, before, _, _, _, _, _, _) => WellFormedNode(c) && !ClosesCycle(g, dependsOn, Target(before))
    case PrepareAgent(_, token) => NonBlank(token)
    case PrepareWait(_, caption, eventNote, logFile, lockFile, startupFile, watchId) =>
      && NonBlank(caption) && SingleLine(eventNote) && NonBlank(logFile) && NonBlank(lockFile)
      && NonBlank(startupFile) && NonBlank(watchId)
    case Wake(_, _, _, status) => OptionNonBlank(status)
    case Complete(id, summary, artifacts) =>
      NonBlank(summary) && AllNonBlank(artifacts) && (id in g.nodes ==> g.nodes[id].wait.None?)
    case Fail(_, summary) => NonBlank(summary)
    case Verify(summary, checks) => NonBlank(summary) && checks != [] && AllNonBlank(checks)
    case Finish(summary) => NonBlank(summary)
    case _ => true
  }

  // Inputs come from dependencies, read-only nodes claim nothing, and texts are not blank.
  predicate WellFormedNode(c: Command)
    requires c.Add?
  {
    && NonBlank(c.title) && AllNonBlank(c.acceptance) && AllNonBlank(c.expectedArtifacts)
    && (c.readOnly ==> c.writePaths == [])
    && (forall name :: name in c.inputs ==> NonBlank(name) && c.inputs[name] in c.dependsOn)
  }

  // A new dependency already leads to (or is) the node that is to depend on it.
  ghost predicate ClosesCycle(g: Goal, dependsOn: seq<NodeId>, target: Option<NodeId>) {
    target.Some? && exists d :: d in dependsOn && Graph.Reaches(DepGraph(g.nodes), d, target.value)
  }

  lemma DedupNonBlank(items: seq<string>)
    ensures AllNonBlank(Dedup(items)) == AllNonBlank(items)
    ensures Dedup(items) == [] <==> items == []
  {
    if items != [] {
      assert items[0] in items;
      assert items[0] in Dedup(items);
    }
  }

  // ---- One node -------------------------------------------------------------------------

  lemma DispatchKeepsNode(g: Goal, c: Command, now: Time)
    requires c.PrepareAgent? || c.Start? || c.AbortAgent?
    requires Apply(g, c, now).Ok? && ValidNode(c.id, g.nodes[c.id], g.nodes.Keys)
    ensures ValidNode(c.id, Apply(g, c, now).value.nodes[c.id], g.nodes.Keys) <==> Acceptable(g, c)
  {
    if c.Start? {
      StartKeepsNode(g, c, now);
    }
  }

  lemma StartKeepsNode(g: Goal, c: Command, now: Time)
    requires c.Start? && StartNode(g, c.id, c.agentId, c.dispatchToken, now).Ok?
    requires ValidNode(c.id, g.nodes[c.id], g.nodes.Keys)
    ensures ValidNode(c.id, StartNode(g, c.id, c.agentId, c.dispatchToken, now).value.nodes[c.id], g.nodes.Keys)
  {
  }

  lemma WaitKeepsNode(g: Goal, c: Command, now: Time)
    requires c.PrepareWait? || c.ActivateWait? || c.AbortWait? || c.Wake?
    requires Apply(g, c, now).Ok? && Apply(g, c, now).value != g && ValidNode(c.id, g.nodes[c.id], g.nodes.Keys)
    ensures ValidNode(c.id, Apply(g, c, now).value.nodes[c.id], g.nodes.Keys) <==> Acceptable(g, c)
  {
    if c.PrepareWait? {
      PreparedWaitKeepsNode(g, c, now);
    } else if c.Wake? {
      WakeKeepsNode(g, c, now);
    }
  }

  lemma PreparedWaitKeepsNode(g: Goal, c: Command, now: Time)
    requires c.PrepareWait? && PrepareExternalWait(g, c, now).Ok? && ValidNode(c.id, g.nodes[c.id], g.nodes.Keys)
    ensures ValidNode(c.id, PrepareExternalWait(g, c, now).value.nodes[c.id], g.nodes.Keys) <==> Acceptable(g, c)
  {
  }

  lemma WakeKeepsNode(g: Goal, c: Command, now: Time)
    requires c.Wake? && WakeNode(g, c.id, c.watchId, c.event, c.status, now).Ok? && ValidNode(c.id, g.nodes[c.id], g.nodes.Keys)
    requires WakeNode(g, c.id, c.watchId, c.event, c.status, now).value != g
    ensures ValidNode(c.id, WakeNode(g, c.id, c.watchId, c.event, c.status, now).value.nodes[c.id], g.nodes.Keys) <==> Acceptable(g, c)
  {
  }

  lemma CompleteKeepsNode(g: Goal, c: Command, now: Time)
    requires c.Complete?
    requires Apply(g, c, now).Ok? && ValidNode(c.id, g.nodes[c.id], g.nodes.Keys)
    ensures ValidNode(c.id, Apply(g, c, now).value.nodes[c.id], g.nodes.Keys) <==> Acceptable(g, c)
  {
    DedupNonBlank(c.artifacts);
  }

  lemma FailureKeepsNode(g: Goal, c: Command, now: Time)
    requires c.Fail? || c.Retry?
    requires Apply(g, c, now).Ok? && ValidNode(c.id, g.nodes[c.id], g.nodes.Keys)
    ensures ValidNode(c.id, Apply(g, c, now).value.nodes[c.id], g.nodes.Keys) <==> Acceptable(g, c)
  {
    if c.Retry? {
      RetryKeepsNode(g, c, now);
    }
  }

  lemma RetryKeepsNode(g: Goal, c: Command, now: Time)
    requires c.Retry? && RetryNode(g, c.id, now).Ok? && ValidNode(c.id, g.nodes[c.id], g.nodes.Keys)
    ensures ValidNode(c.id, RetryNode(g, c.id, now).value.nodes[c.id], g.nodes.Keys)
  {
    var node, next := g.nodes[c.id], RetryNode(g, c.id, now).value.nodes[c.id];
    assert ValidAttempt(next.attempts[|node.attempts|]);
  }

  // Every field of an edited node but its dependencies is validated as before.
  lemma EditKeepsNode(g: Goal, c: Command, now: Time)
    requires c.Edit?
    requires Apply(g, c, now).Ok? && (forall id :: id in g.nodes ==> ValidNode(id, g.nodes[id], g.nodes.Keys))
    ensures ValidNode(c.id, Apply(g, c, now).value.nodes[c.id], g.nodes.Keys) <==>
      && NonBlank(c.title) && AllNonBlank(c.acceptance)
      && (forall d :: d in c.dependsOn ==> d in g.nodes)
      && (forall name :: name in g.nodes[c.id].inputs ==> g.nodes[c.id].inputs[name] in c.dependsOn)
  {
    NodeIdsNonBlank(g.nodes);
    RewordedNodeValid(c.id, g.nodes[c.id], g.nodes.Keys, c.title, c.dependsOn, c.acceptance);
  }

  lemma RewordedNodeValid(id: NodeId, node: Node, ids: set<NodeId>, title: string, dependsOn: seq<NodeId>, acceptance: seq<string>)
    requires ValidNode(id, node, ids) && forall d :: d in ids ==> NonBlank(d)
    ensures ValidNode(id, node.(title := title, dependsOn := dependsOn, acceptance := acceptance), ids) <==>
      && NonBlank(title) && AllNonBlank(acceptance)
      && (forall d :: d in dependsOn ==> d in ids)
      && (forall name :: name in node.inputs ==> node.inputs[name] in dependsOn)
  {
  }

  lemma NodeIdsNonBlank(nodes: map<NodeId, Node>)
    requires forall id :: id in nodes ==> ValidNode(id, nodes[id], nodes.Keys)
    ensures forall id :: id in nodes ==> NonBlank(id)
  {
    forall id | id in nodes ensures NonBlank(id) {
      assert ValidNode(id, nodes[id], nodes.Keys);
      ValidNodeIdNonBlank(id);
    }
  }

  // The fields of a new node that come from its arguments.
  lemma NewNodeShape(c: Command, ids: set<NodeId>)
    requires c.Add? && ValidNodeId(c.id)
    requires forall d :: d in ids ==> NonBlank(d)
    requires forall d :: d in c.dependsOn ==> d in ids
    ensures
      var node := NewNode(c.title, c.kind, c.dependsOn, c.acceptance, c.readOnly, c.writePaths, c.inputs, c.expectedArtifacts);
      ValidShape(c.id, node) <==>
        && NonBlank(c.title) && AllNonBlank(c.acceptance) && AllNonBlank(c.expectedArtifacts)
        && (c.readOnly ==> c.writePaths == [])
        && (forall name :: name in c.inputs ==> NonBlank(name) && NonBlank(c.inputs[name]))
  {
    DedupNonBlank(c.dependsOn);
    DedupNonBlank(c.acceptance);
    DedupNonBlank(c.expectedArtifacts);
    if c.writePaths != [] {
      assert c.writePaths[0] in Dedup(c.writePaths);
    }
  }

  lemma NewNodeValid(g: Goal, c: Command, ids: set<NodeId>)
    requires c.Add? && ValidNodeId(c.id) && g.nodes.Keys <= ids
    requires forall id :: id in g.nodes ==> ValidNode(id, g.nodes[id], g.nodes.Keys)
    requires forall d :: d in c.dependsOn ==> d in g.nodes
    ensures
      var node := NewNode(c.title, c.kind, c.dependsOn, c.acceptance, c.readOnly, c.writePaths, c.inputs, c.expectedArtifacts);
      ValidNode(c.id, node, ids) <==> WellFormedNode(c)
  {
    NodeIdsNonBlank(g.nodes);
    NewNodeShape(c, g.nodes.Keys);
    FreshNodeLifecycle(c, ids);
  }

  // A node that has not started is valid as far as its life goes.
  lemma FreshNodeLifecycle(c: Command, ids: set<NodeId>)
    requires c.Add? && forall d :: d in c.dependsOn ==> d in ids
    ensures
      var node := NewNode(c.title, c.kind, c.dependsOn, c.acceptance, c.readOnly, c.writePaths, c.inputs, c.expectedArtifacts);
      && ValidLifecycle(node) && ValidAssignment(node) && node.attempts == [] && ValidWait(node)
      && (ValidReferences(node, ids) <==> forall name :: name in c.inputs ==> c.inputs[name] in c.dependsOn)
  {
  }

  // ---- The whole goal -------------------------------------------------------------------

  lemma EventsStayValid(g: Goal, c: Command, source: string, now: Time)
    requires ValidEvents(g.events) && OptionNonBlank(EntryNode(EntryFor(c)))
    ensures ValidEvents(g.events + [Event(|g.events| + 1, now, EntryFor(c), Some(source))])
  {
  }

  lemma NamedNodeNonBlank(g: Goal, c: Command, now: Time)
    requires ValidParts(g) && Apply(g, c, now).Ok?
    ensures OptionNonBlank(EntryNode(EntryFor(c)))
  {
    NodeIsNamed(g, c, now);
    if ChangesOneNode(c) {
      assert ValidNode(c.id, g.nodes[c.id], g.nodes.Keys);
      ValidNodeIdNonBlank(c.id);
    } else if c.Add? {
      ValidNodeIdNonBlank(c.id);
    }
  }

  lemma NodeIsNamed(g: Goal, c: Command, now: Time)
    requires Apply(g, c, now).Ok?
    ensures ChangesOneNode(c) ==> c.id in g.nodes && EntryNode(EntryFor(c)) == Some(c.id)
    ensures c.Add? ==> ValidNodeId(c.id) && EntryNode(EntryFor(c)) == Some(c.id)
    ensures !ChangesOneNode(c) && !c.Add? ==> EntryNode(EntryFor(c)) == None
  {
  }

  // Everything `validate` looks at, apart from the log and the dependency cycles.
  ghost predicate ValidState(g: Goal) {
    && (forall id :: id in g.nodes ==> ValidNode(id, g.nodes[id], g.nodes.Keys))
    && ValidVerification(g)
    && ValidEnding(g)
  }

  // The commit goes through exactly when the changed state is valid.
  lemma CommitIffValidState(g: Goal, c: Command, source: string, now: Time)
    requires ValidGoal(g) && Apply(g, c, now).Ok? && Apply(g, c, now).value != g
    ensures var h := Apply(g, c, now).value;
            Commit(g, c, source, now).Ok? <==> ValidState(h) && Graph.Acyclic(DepGraph(h.nodes))
  {
    ApplyLogs(g, c, now);
    NamedNodeNonBlank(g, c, now);
    EventsStayValid(g, c, source, now);
    var h := Apply(g, c, now).value;
    var stamped := Stamp(h, |g.events|, source);
    StampedLog(g, h, c, source, now);
    ApplyKeepsOwner(g, c, now);
    StampedParts(g, h, stamped);
  }

  // A valid log and an unchanged owner leave only the state to be checked.
  lemma StampedParts(g: Goal, h: Goal, stamped: Goal)
    requires ValidParts(g) && h.objective == g.objective && h.thread == g.thread
    requires stamped == h.(events := stamped.events) && ValidEvents(stamped.events)
    ensures ValidParts(stamped) <==> ValidState(h)
  {
  }

  lemma ApplyKeepsOwner(g: Goal, c: Command, now: Time)
    requires Apply(g, c, now).Ok?
    ensures var h := Apply(g, c, now).value;
            h.objective == g.objective && h.thread == g.thread
  {
  }

  lemma NodeCommandKeepsRest(g: Goal, c: Command, now: Time)
    requires ChangesOneNode(c) && Apply(g, c, now).Ok?
    ensures var h := Apply(g, c, now).value;
            h.status == g.status && h.result == g.result && h.completedAt == g.completedAt
  {
  }

  lemma OneNodeValid(g: map<NodeId, Node>, h: map<NodeId, Node>, id: NodeId)
    requires forall x :: x in g ==> ValidNode(x, g[x], g.Keys)
    requires id in g && id in h && h == g[id := h[id]]
    ensures (forall x :: x in h ==> ValidNode(x, h[x], h.Keys)) <==> ValidNode(id, h[id], g.Keys)
  {
    assert h.Keys == g.Keys;
  }

  // An operation on one node puts nothing else in doubt.
  lemma NodeCommandState(g: Goal, c: Command, now: Time)
    requires ValidGoal(g) && ChangesOneNode(c) && Apply(g, c, now).Ok? && Apply(g, c, now).value != g
    ensures var h := Apply(g, c, now).value;
            && c.id in g.nodes && c.id in h.nodes
            && h.nodes == g.nodes[c.id := h.nodes[c.id]]
            && (ValidState(h) <==> ValidNode(c.id, h.nodes[c.id], g.nodes.Keys))
  {
    var h := Apply(g, c, now).value;
    NodeCommandMoves(g, c, now);
    NodeCommandKeepsRest(g, c, now);
    OneNodeValid(g.nodes, h.nodes, c.id);
    ApplyKeepsVerification(g, c, now);
    if g.status == GoalCompleted {
      FinishedGoalInert(g, c, now);
      assert false;
    }
  }

  lemma NodeCommandAccepted(g: Goal, c: Command, source: string, now: Time)
    requires ValidGoal(g) && ChangesOneNode(c) && !c.Edit? && Apply(g, c, now).Ok? && Apply(g, c, now).value != g
    ensures Commit(g, c, source, now).Ok? <==> Acceptable(g, c)
  {
    CommitIffValidState(g, c, source, now);
    NodeCommandState(g, c, now);
    NodeCommandKeepsGraph(g, c, now);
    assert ValidNode(c.id, g.nodes[c.id], g.nodes.Keys);
    if c.Complete? {
      CompleteKeepsNode(g, c, now);
    } else if c.Fail? || c.Retry? {
      FailureKeepsNode(g, c, now);
    } else if c.PrepareAgent? || c.Start? || c.AbortAgent? {
      DispatchKeepsNode(g, c, now);
    } else {
      WaitKeepsNode(g, c, now);
    }
  }

  lemma NodeCommandKeepsDependencies(g: Goal, c: Command, now: Time)
    requires ChangesOneNode(c) && !c.Edit? && Apply(g, c, now).Ok? && c.id in g.nodes
    ensures c.id in Apply(g, c, now).value.nodes
    ensures Apply(g, c, now).value.nodes[c.id].dependsOn == g.nodes[c.id].dependsOn
  {
  }

  lemma OneNodeGraph(g: map<NodeId, Node>, h: map<NodeId, Node>, id: NodeId)
    requires id in g && id in h && h == g[id := h[id]]
    ensures DepGraph(h) == DepGraph(g)[id := h[id].dependsOn]
    ensures h[id].dependsOn == g[id].dependsOn ==> DepGraph(h) == DepGraph(g)
  {
  }

  lemma NodeCommandKeepsGraph(g: Goal, c: Command, now: Time)
    requires ChangesOneNode(c) && !c.Edit? && Apply(g, c, now).Ok? && Apply(g, c, now).value != g
    ensures DepGraph(Apply(g, c, now).value.nodes) == DepGraph(g.nodes)
  {
    NodeCommandMoves(g, c, now);
    NodeCommandKeepsDependencies(g, c, now);
    OneNodeGraph(g.nodes, Apply(g, c, now).value.nodes, c.id);
  }

  lemma EditChanges(g: Goal, c: Command, now: Time)
    requires c.Edit? && Apply(g, c, now).Ok?
    ensures var h := Apply(g, c, now).value;
            h != g && c.id in g.nodes && c.id in h.nodes && h.nodes[c.id].dependsOn == c.dependsOn
  {
    assert |Apply(g, c, now).value.events| == |g.events| + 1;
  }

  // Both parts of the edited state, apart from the commit itself.
  lemma EditedState(g: Goal, h: Goal, c: Command)
    requires ValidGoal(g) && c.Edit? && c.id in g.nodes && c.id in h.nodes && h.nodes == g.nodes[c.id := h.nodes[c.id]]
    requires h.nodes[c.id].dependsOn == c.dependsOn
    ensures Graph.Acyclic(DepGraph(h.nodes)) <==> !ClosesCycle(g, c.dependsOn, Some(c.id))
  {
    OneNodeGraph(g.nodes, h.nodes, c.id);
    Graph.RepointCycle(DepGraph(g.nodes), c.id, c.dependsOn);
  }

  lemma EditAccepted(g: Goal, c: Command, source: string, now: Time)
    requires ValidGoal(g) && c.Edit? && Apply(g, c, now).Ok?
    ensures Commit(g, c, source, now).Ok? <==> Acceptable(g, c)
  {
    EditChanges(g, c, now);
    CommitIffValidState(g, c, source, now);
    NodeCommandState(g, c, now);
    EditKeepsNode(g, c, now);
    EditedState(g, Apply(g, c, now).value, c);
  }

  // The dependency graph after an insertion.
  function Grown(graph: Graph.Graph, id: NodeId, dependsOn: seq<NodeId>, target: Option<NodeId>): Graph.Graph
    requires target.Some? ==> target.value in graph
  {
    var grown := graph[id := Dedup(dependsOn)];
    if target.Some? then grown[target.value := Dedup(graph[target.value] + [id])] else grown
  }

  lemma InsertedGraph(g: Goal, h: Goal, c: Command)
    requires c.Add? && Inserts(g.nodes, h.nodes, c)
    ensures DepGraph(h.nodes) == Grown(DepGraph(g.nodes), c.id, c.dependsOn, Target(c.before))
  {
  }

  lemma GrownCycle(graph: Graph.Graph, id: NodeId, dependsOn: seq<NodeId>, target: Option<NodeId>)
    requires Graph.Acyclic(graph) && Graph.Closed(graph) && id !in graph && (target.Some? ==> target.value in graph)
    requires forall d :: d in dependsOn ==> d in graph
    ensures Graph.Acyclic(Grown(graph, id, dependsOn, target)) <==>
            !(target.Some? && exists d :: d in dependsOn && Graph.Reaches(graph, d, target.value))
  {
    if target.Some? {
      var t := target.value;
      Graph.InsertBeforeCycle(graph, id, Dedup(dependsOn), t, Dedup(graph[t] + [id]));
    } else {
      Graph.AppendKeepsAcyclic(graph, id, Dedup(dependsOn));
    }
  }

  lemma ValidGraphClosed(g: Goal)
    requires ValidParts(g)
    ensures Graph.Closed(DepGraph(g.nodes))
  {
    forall x, d | x in g.nodes && d in g.nodes[x].dependsOn ensures d in g.nodes {
      assert ValidNode(x, g.nodes[x], g.nodes.Keys);
    }
  }

  lemma InsertionCycle(g: Goal, h: Goal, c: Command)
    requires ValidGoal(g) && c.Add? && Inserts(g.nodes, h.nodes, c)
    requires forall d :: d in c.dependsOn ==> d in g.nodes
    ensures Graph.Acyclic(DepGraph(h.nodes)) <==> !ClosesCycle(g, c.dependsOn, Target(c.before))
  {
    InsertedGraph(g, h, c);
    ValidGraphClosed(g);
    GrownCycle(DepGraph(g.nodes), c.id, c.dependsOn, Target(c.before));
  }

  lemma GrownIdsValid(id: NodeId, node: Node, ids: set<NodeId>, more: set<NodeId>)
    requires ValidNode(id, node, ids) && ids <= more
    ensures ValidNode(id, node, more)
  {
  }

  lemma ExtraDependencyValid(id: NodeId, node: Node, ids: set<NodeId>, extra: NodeId)
    requires ValidNode(id, node, ids) && extra in ids && NonBlank(extra)
    ensures ValidNode(id, node.(dependsOn := Dedup(node.dependsOn + [extra])), ids)
  {
  }

  lemma OldNodesStayValid(g: map<NodeId, Node>, h: map<NodeId, Node>, c: Command)
    requires c.Add? && Inserts(g, h, c) && ValidNodeId(c.id)
    requires forall id :: id in g ==> ValidNode(id, g[id], g.Keys)
    ensures forall id :: id in g ==> ValidNode(id, h[id], h.Keys)
  {
    ValidNodeIdNonBlank(c.id);
    forall id | id in g ensures ValidNode(id, h[id], h.Keys) {
      GrownIdsValid(id, g[id], g.Keys, h.Keys);
      ExtraDependencyValid(id, g[id], h.Keys, c.id);
    }
  }

  lemma AddedState(g: Goal, h: Goal, c: Command)
    requires ValidState(g) && c.Add? && Inserts(g.nodes, h.nodes, c) && ValidNodeId(c.id)
    requires h.status == g.status == GoalOpen && h.result == g.result && h.completedAt == g.completedAt && h.verification.None?
    ensures ValidState(h) <==> ValidNode(c.id, h.nodes[c.id], h.nodes.Keys)
  {
    OldNodesStayValid(g.nodes, h.nodes, c);
    assert h.nodes.Keys == g.nodes.Keys + {c.id};
  }

  lemma InsertionAccepted(g: Goal, h: Goal, c: Command)
    requires ValidGoal(g) && c.Add? && Inserts(g.nodes, h.nodes, c) && ValidNodeId(c.id)
    requires h.status == g.status == GoalOpen && h.result == g.result && h.completedAt == g.completedAt && h.verification.None?
    requires forall d :: d in c.dependsOn ==> d in g.nodes
    ensures ValidState(h) && Graph.Acyclic(DepGraph(h.nodes)) <==> Acceptable(g, c)
  {
    NewNodeValid(g, c, h.nodes.Keys);
    AddedState(g, h, c);
    InsertionCycle(g, h, c);
  }

  lemma AddAccepted(g: Goal, c: Command, source: string, now: Time)
    requires ValidGoal(g) && c.Add? && Apply(g, c, now).Ok? && Apply(g, c, now).value != g
    ensures Commit(g, c, source, now).Ok? <==> Acceptable(g, c)
  {
    AddInserts(g, c, now);
    AddKeepsRest(g, c, now);
    CommitIffValidState(g, c, source, now);
    InsertionAccepted(g, Apply(g, c, now).value, c);
  }

  lemma AddKeepsRest(g: Goal, c: Command, now: Time)
    requires c.Add? && AddNode(g, c, now).Ok?
    ensures var h := AddNode(g, c, now).value;
            g.status == GoalOpen && h.status == g.status && h.result == g.result && h.completedAt == g.completedAt
    ensures ValidNodeId(c.id) && forall d :: d in c.dependsOn ==> d in g.nodes
  {
  }

  lemma CancelKeepsNode(id: NodeId, node: Node, ids: set<NodeId>)
    requires ValidNode(id, node, ids)
    ensures ValidNode(id, CancelledNode(node), ids)
  {
  }

  lemma CancelledState(g: Goal, now: Time)
    requires ValidState(g) && CancelGoal(g, now).Ok?
    ensures ValidState(CancelGoal(g, now).value)
  {
    var h := CancelGoal(g, now).value;
    assert h.nodes.Keys == g.nodes.Keys;
    forall id | id in h.nodes ensures ValidNode(id, h.nodes[id], h.nodes.Keys) {
      CancelKeepsNode(id, g.nodes[id], g.nodes.Keys);
    }
    if AllCompleted(g.nodes) {
      assert h.nodes == g.nodes;
    }
  }

  lemma CancelKeepsGraph(g: Goal, now: Time)
    requires CancelGoal(g, now).Ok?
    ensures var h := CancelGoal(g, now).value;
            h != g && DepGraph(h.nodes) == DepGraph(g.nodes)
  {
    assert |CancelGoal(g, now).value.events| == |g.events| + 1;
  }

  lemma VerifiedState(g: Goal, c: Command, now: Time)
    requires ValidState(g) && c.Verify? && VerifyGoal(g, c.summary, c.checks, now).Ok?
    ensures var h := VerifyGoal(g, c.summary, c.checks, now).value;
            h.nodes == g.nodes && (ValidState(h) <==> Acceptable(g, c))
  {
    DedupNonBlank(c.checks);
  }

  lemma FinishedState(g: Goal, c: Command, now: Time)
    requires ValidState(g) && c.Finish? && FinishGoal(g, c.summary, now).Ok?
    ensures var h := FinishGoal(g, c.summary, now).value;
            h.nodes == g.nodes && (ValidState(h) <==> Acceptable(g, c))
  {
  }

  lemma PausedState(g: Goal, now: Time)
    requires ValidState(g)
    ensures PauseGoal(g, now).Ok? ==> PauseGoal(g, now).value.nodes == g.nodes && ValidState(PauseGoal(g, now).value)
    ensures ResumeGoal(g, now).Ok? ==> ResumeGoal(g, now).value.nodes == g.nodes && ValidState(ResumeGoal(g, now).value)
  {
  }

  lemma StatusCommandState(g: Goal, c: Command, now: Time)
    requires ValidState(g) && (c.Verify? || c.Pause? || c.Resume? || c.Finish?) && Apply(g, c, now).Ok?
    ensures var h := Apply(g, c, now).value;
            h.nodes == g.nodes && (ValidState(h) <==> Acceptable(g, c))
  {
    if c.Verify? {
      VerifiedState(g, c, now);
    } else if c.Finish? {
      FinishedState(g, c, now);
    } else {
      PausedState(g, now);
    }
  }

  lemma GoalCommandAccepted(g: Goal, c: Command, source: string, now: Time)
    requires ValidGoal(g) && !ChangesOneNode(c) && !c.Add? && Apply(g, c, now).Ok? && Apply(g, c, now).value != g
    ensures Commit(g, c, source, now).Ok? <==> Acceptable(g, c)
  {
    CommitIffValidState(g, c, source, now);
    if c.Cancel? {
      CancelledState(g, now);
      CancelKeepsGraph(g, now);
    } else {
      StatusCommandState(g, c, now);
    }
  }

  // `complete_node` passes its own guards while a wait is prepared, and is then refused by
  // `validate`, whatever its arguments.
  lemma PreparedWaitBlocksCompletion(g: Goal, c: Command, source: string, now: Time)
    requires ValidGoal(g) && c.Complete? && c.id in g.nodes
    requires g.nodes[c.id].status == Running && g.nodes[c.id].wait.Some?
    requires MissingArtifacts(g.nodes[c.id], Dedup(c.artifacts)) == {}
    ensures Apply(g, c, now).Ok? && Commit(g, c, source, now) == Err(InvalidState)
  {
    CompletionPasses(g, c, now);
    CommitAcceptedIff(g, c, source, now);
    WaitingIsUnacceptable(g, c);
    RefusedAsInvalid(g, c, source, now);
  }

  lemma CompletionPasses(g: Goal, c: Command, now: Time)
    requires c.Complete? && c.id in g.nodes && g.nodes[c.id].status == Running
    requires MissingArtifacts(g.nodes[c.id], Dedup(c.artifacts)) == {}
    ensures Apply(g, c, now).Ok? && Apply(g, c, now).value != g
  {
    assert |CompleteNode(g, c.id, c.summary, c.artifacts, now).value.events| == |g.events| + 1;
  }

  lemma WaitingIsUnacceptable(g: Goal, c: Command)
    requires c.Complete? && c.id in g.nodes && g.nodes[c.id].wait.Some?
    ensures !Acceptable(g, c)
  {
  }

  lemma RefusedAsInvalid(g: Goal, c: Command, source: string, now: Time)
    requires Apply(g, c, now).Ok? && Commit(g, c, source, now).Err?
    ensures Commit(g, c, source, now) == Err(InvalidState)
  {
  }

  // On a valid goal, an operation whose guards have passed is committed if and only if its
  // arguments are acceptable; nothing else can make `validate` refuse it.
  lemma CommitAcceptedIff(g: Goal, c: Command, source: string, now: Time)
    requires ValidGoal(g) && Apply(g, c, now).Ok? && Apply(g, c, now).value != g
    ensures Commit(g, c, source, now).Ok? <==> Acceptable(g, c)
  {
    if c.Edit? {
      EditAccepted(g, c, source, now);
    } else if ChangesOneNode(c) {
      NodeCommandAccepted(g, c, source, now);
    } else if c.Add? {
      AddAccepted(g, c, source, now);
    } else {
      GoalCommandAccepted(g, c, source, now);
    }
  }

  // What a command whose guards pass and whose arguments are acceptable commits.
  lemma CommandCommitted(g: Goal, c: Command, source: string, now: Time)
    requires ValidGoal(g) && Apply(g, c, now).Ok? && Apply(g, c, now).value != g && Acceptable(g, c)
    ensures Commit(g, c, source, now).Ok?
    ensures var raw, h := Apply(g, c, now).value, Commit(g, c, source, now).value;
            && ValidGoal(h) && h.nodes == raw.nodes && h.status == raw.status && h.thread == g.thread
            && Entries(h.events) == Entries(g.events) + [EntryFor(c)]
  {
    CommitAcceptedIff(g, c, source, now);
    CommitParts(g, c, source, now);
    ApplyKeepsOwner(g, c, now);
  }

  // ---- A prepared wait can come about -----------------------------------------------------------

  const NAME: string := "n"

  lemma NameIsText()
    ensures NonBlank(NAME) && SingleLine(NAME) && ValidNodeId(NAME)
  {
    assert NAME[0] == 'n' && !IsSpace('n');
  }

  lemma CreatedIsValid(objective: string, thread: Option<string>, client: Client, now: Time)
    requires NonBlank(objective) && OptionNonBlank(thread)
    ensures ValidGoal(Create(objective, thread, client, now))
  {
    var g := Create(objective, thread, client, now);
    forall p ensures !Graph.Cycle(DepGraph(g.nodes), p) {
      if |p| > 1 {
        assert !Graph.Edge(DepGraph(g.nodes), p[0], p[1]);
      }
    }
  }

  // An external node, and the same node running.
  const ADDED: Node := NewNode(NAME, External, [], [], true, [], map[], [])

  // The goal took over what the operation left, and logged it.
  ghost predicate Became(g: Goal, h: Goal, raw: Goal, e: Entry) {
    && ValidGoal(h) && h.status == raw.status && h.thread == g.thread
    && h.nodes == raw.nodes && Entries(h.events) == Entries(g.events) + [e]
  }

  lemma AddingPasses(g: Goal, c: Command, now: Time)
    requires g.status == GoalOpen && g.nodes == map[] && c == Add(NAME, NAME, External, [], None, [], true, [], map[], [], None)
    ensures Apply(g, c, now).Ok? && Apply(g, c, now).value != g && Acceptable(g, c)
    ensures Apply(g, c, now).value.nodes == map[NAME := ADDED] && Apply(g, c, now).value.status == GoalOpen
  {
    NameIsText();
    assert |AddNode(g, c, now).value.events| == |g.events| + 1;
  }

  lemma StartingPasses(g: Goal, c: Command, now: Time)
    requires g.status == GoalOpen && g.nodes == map[NAME := ADDED] && c == Start(NAME, None, None)
    ensures Apply(g, c, now).Ok? && Apply(g, c, now).value != g && Acceptable(g, c)
    ensures Apply(g, c, now).value.nodes == map[NAME := ADDED.(status := Running, startedAt := Some(now))]
    ensures Apply(g, c, now).value.status == GoalOpen
  {
    assert |StartNode(g, NAME, None, None, now).value.events| == |g.events| + 1;
  }

  lemma PreparingPasses(g: Goal, c: Command, now: Time)
    requires g.status == GoalOpen && g.thread == Some(NAME)
    requires g.nodes == map[NAME := ADDED.(status := Running, startedAt := Some(now))]
    requires c == PrepareWait(NAME, NAME, NAME, NAME, NAME, NAME, NAME)
    ensures Apply(g, c, now).Ok? && Apply(g, c, now).value != g && Acceptable(g, c)
    ensures var h := Apply(g, c, now).value;
            h.status == GoalOpen && NAME in h.nodes && h.nodes[NAME].status == Running && h.nodes[NAME].wait.Some? && h.nodes[NAME].expectedArtifacts == []
  {
    NameIsText();
    assert |PrepareExternalWait(g, c, now).value.events| == |g.events| + 1;
  }

  // One step of the history.
  lemma NextGoal(g: Goal, c: Command, source: string, now: Time) returns (h: Goal)
    requires ValidGoal(g) && Apply(g, c, now).Ok? && Apply(g, c, now).value != g && Acceptable(g, c) && DrawsFreshTokens(g, c)
    ensures Commits(g, h) && Became(g, h, Apply(g, c, now).value, EntryFor(c))
  {
    CommandCommitted(g, c, source, now);
    h := Commit(g, c, source, now).value;
  }

  lemma HistoryOfFour(g0: Goal, g1: Goal, g2: Goal, g3: Goal)
    requires Created(g0) && Commits(g0, g1) && Commits(g1, g2) && Commits(g2, g3)
    ensures IsHistory([g0, g1, g2, g3])
  {
  }

  // Creation, ...
  lemma Beginning(now: Time) returns (g0: Goal)
    ensures Created(g0) && ValidGoal(g0) && g0.status == GoalOpen && g0.thread == Some(NAME) && g0.nodes == map[]
    ensures Entries(g0.events) == [LogInit]
  {
    NameIsText();
    CreatedIsValid(NAME, Some(NAME), Codex, now);
    g0 := Create(NAME, Some(NAME), Codex, now);
  }

  // ... the new node, ...
  lemma FirstStep(g0: Goal, source: string, now: Time) returns (g1: Goal)
    requires ValidGoal(g0) && g0.status == GoalOpen && g0.nodes == map[] && Entries(g0.events) == [LogInit]
    ensures Commits(g0, g1) && ValidGoal(g1)
    ensures g1.status == GoalOpen && g1.thread == g0.thread && g1.nodes == map[NAME := ADDED]
    ensures forall e :: e in Entries(g1.events) ==> EntryToken(e).None?
  {
    var add := Add(NAME, NAME, External, [], None, [], true, [], map[], [], None);
    AddingPasses(g0, add, now);
    g1 := NextGoal(g0, add, source, now);
  }

  // ... its start, ...
  lemma SecondStep(g1: Goal, source: string, now: Time) returns (g2: Goal)
    requires ValidGoal(g1) && g1.status == GoalOpen && g1.nodes == map[NAME := ADDED]
    requires forall e :: e in Entries(g1.events) ==> EntryToken(e).None?
    ensures Commits(g1, g2) && ValidGoal(g2) && g2.status == GoalOpen && g2.thread == g1.thread
    ensures g2.nodes == map[NAME := ADDED.(status := Running, startedAt := Some(now))]
    ensures forall e :: e in Entries(g2.events) ==> EntryToken(e).None?
  {
    var start := Start(NAME, None, None);
    StartingPasses(g1, start, now);
    g2 := NextGoal(g1, start, source, now);
  }

  // ... and the preparation of its wait.
  lemma ThirdStep(g2: Goal, source: string, now: Time) returns (g3: Goal)
    requires ValidGoal(g2) && g2.status == GoalOpen && g2.thread == Some(NAME)
    requires g2.nodes == map[NAME := ADDED.(status := Running, startedAt := Some(now))]
    requires forall e :: e in Entries(g2.events) ==> EntryToken(e).None?
    ensures Commits(g2, g3) && ValidGoal(g3) && NAME in g3.nodes && g3.nodes[NAME].status == Running && g3.nodes[NAME].wait.Some?
    ensures g3.nodes[NAME].expectedArtifacts == []
  {
    NameIsText();
    var prepare := PrepareWait(NAME, NAME, NAME, NAME, NAME, NAME, NAME);
    PreparingPasses(g2, prepare, now);
    g3 := NextGoal(g2, prepare, source, now);
  }

  // A history at whose end a node holds a prepared wait, so that completing it is refused.
  lemma PreparedWaitComesAbout(source: string, now: Time) returns (history: seq<Goal>)
    ensures IsHistory(history)
    ensures var g := history[|history| - 1];
            && NAME in g.nodes && g.nodes[NAME].status == Running && g.nodes[NAME].wait.Some?
            && Commit(g, Complete(NAME, NAME, []), source, now) == Err(InvalidState)
  {
    var g0 := Beginning(now);
    var g1 := FirstStep(g0, source, now);
    var g2 := SecondStep(g1, source, now);
    var g3 := ThirdStep(g2, source, now);
    HistoryOfFour(g0, g1, g2, g3);
    history := [g0, g1, g2, g3];
    CompletionIsRefused(g3, source, now);
  }

  lemma CompletionIsRefused(g: Goal, source: string, now: Time)
    requires ValidGoal(g) && NAME in g.nodes && g.nodes[NAME].status == Running && g.nodes[NAME].wait.Some?
    requires g.nodes[NAME].expectedArtifacts == []
    ensures Commit(g, Complete(NAME, NAME, []), source, now) == Err(InvalidState)
  {
    PreparedWaitBlocksCompletion(g, Complete(NAME, NAME, []), source, now);
  }
}
