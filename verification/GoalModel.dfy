// The persisted goal: nodes, goal status, event log, and what `validate` accepts.
module GoalModel {
  import opened Base
  import opened Paths
  import Graph

  type NodeId = string

  datatype NodeKind = Agent | Local | External

  datatype NodeStatus = Pending | Dispatching | Running | Waiting | Completed | Failed | Cancelled

  datatype GoalStatus = GoalOpen | GoalPaused | GoalCompleted | GoalCancelled

  datatype Client = Claude | Codewiz | Codex | Copilot | Cursor

  datatype WaitEvent = Exited | StartFailed | Interrupted | Ready | Terminal | TimedOut | QueryFailed

  datatype Phase = Prepared | Active

  datatype Wait = Wait(caption: string, eventNote: string, client: Client, thread: string,
                       logFile: string, lockFile: string, startupFile: string,
                       since: Time, watchId: string, phase: Phase)

  datatype WatchEvent = WatchEvent(eventId: string, event: WaitEvent, status: Option<string>, at: Time)

  datatype Assignment = Assignment(phase: Phase, token: string, preparedAt: Time,
                                   agentId: Option<string>, assignedAt: Option<Time>)

  datatype Attempt = Attempt(result: Option<string>, failedAt: Option<Time>, startedAt: Option<Time>,
                             assignment: Option<Assignment>, lastEvent: Option<WatchEvent>)

  datatype Node = Node(title: string, kind: NodeKind, dependsOn: seq<NodeId>, status: NodeStatus,
                       acceptance: seq<string>, readOnly: bool, writePaths: seq<Path>,
                       inputs: map<string, NodeId>, expectedArtifacts: seq<string>,
                       artifacts: seq<string>, result: Option<string>, wait: Option<Wait>,
                       lastEvent: Option<WatchEvent>, assignment: Option<Assignment>,
                       attempts: seq<Attempt>, startedAt: Option<Time>,
                       completedAt: Option<Time>, failedAt: Option<Time>)

  datatype Verification = Verification(summary: string, checks: seq<string>, verifiedAt: Time)

  // The operation name of a log entry together with its node id and details.
  datatype Entry =
    | LogInit
    | LogEdit(id: NodeId)
    | LogAdd(id: NodeId, dependsOn: seq<NodeId>, kind: NodeKind, before: Option<NodeId>, reason: Option<string>)
    | LogPrepareAgent(id: NodeId, token: string)
    | LogStart(id: NodeId)
    | LogAbortAgent(id: NodeId, token: string)
    | LogPrepareWait(id: NodeId, watchId: string)
    | LogActivateWait(id: NodeId, watchId: string)
    | LogAbortWait(id: NodeId, watchId: string)
    | LogWake(id: NodeId, watchId: string, event: WaitEvent, status: Option<string>)
    | LogComplete(id: NodeId, artifacts: seq<string>)
    | LogFail(id: NodeId)
    | LogRetry(id: NodeId)
    | LogVerify(checks: seq<string>)
    | LogPause
    | LogResume
    | LogCancel
    | LogFinish

  datatype Event = Event(seqNo: nat, at: Time, entry: Entry, source: Option<string>)

  datatype Goal = Goal(objective: string, status: GoalStatus, client: Client, thread: Option<string>,
                       verification: Option<Verification>, createdAt: Time, updatedAt: Time,
                       nodes: map<NodeId, Node>, events: seq<Event>,
                       result: Option<string>, completedAt: Option<Time>)

  // ---- Derived facts -------------------------------------------------------------

  function DepGraph(nodes: map<NodeId, Node>): Graph.Graph {
    map id | id in nodes :: nodes[id].dependsOn
  }

  predicate HasStatus(nodes: map<NodeId, Node>, status: NodeStatus) {
    exists id :: id in nodes && nodes[id].status == status
  }

  // Running or waiting: the node owns its write scope.
  predicate IsActive(node: Node) {
    node.status == Running || node.status == Waiting
  }

  predicate DependenciesCompleted(node: Node, nodes: map<NodeId, Node>) {
    forall d :: d in node.dependsOn ==> d in nodes && nodes[d].status == Completed
  }

  predicate NodeIsReady(node: Node, nodes: map<NodeId, Node>) {
    node.status == Pending && DependenciesCompleted(node, nodes)
  }

  predicate NodesConflict(first: Node, second: Node) {
    if first.readOnly || second.readOnly then false
    else if first.writePaths == [] || second.writePaths == [] then true
    else exists p, q :: p in first.writePaths && q in second.writePaths && Overlap(p, q)
  }

  lemma ConflictIsSymmetric(a: Node, b: Node)
    ensures NodesConflict(a, b) == NodesConflict(b, a)
  {
    forall p, q ensures Overlap(p, q) == Overlap(q, p) {
      OverlapIsSymmetric(p, q);
    }
  }

  predicate ConflictsWithActive(node: Node, nodes: map<NodeId, Node>) {
    exists id :: id in nodes && IsActive(nodes[id]) && NodesConflict(node, nodes[id])
  }

  function MissingArtifacts(node: Node, artifacts: seq<string>): set<string> {
    (set a | a in node.expectedArtifacts) - (set a | a in artifacts)
  }

  // ---- What `validate` accepts ---------------------------------------------------

  predicate IsAlnum(c: char) {
    'a' <= c <= 'z' || 'A' <= c <= 'Z' || '0' <= c <= '9'
  }

  predicate ValidNodeId(id: string) {
    && 1 <= |id| <= 128
    && IsAlnum(id[0])
    && forall i :: 0 <= i < |id| ==> IsAlnum(id[i]) || id[i] in "._-"
  }

  lemma ValidNodeIdNonBlank(id: string)
    requires ValidNodeId(id)
    ensures NonBlank(id)
  {
    assert !IsSpace(id[0]);
  }

  predicate SingleLine(s: string) {
    NonBlank(s) && '\r' !in s && '\n' !in s
  }

  predicate ValidWatchEvent(event: Option<WatchEvent>) {
    event.Some? ==> NonBlank(event.value.eventId) && OptionNonBlank(event.value.status)
  }

  predicate ValidWait(node: Node) {
    && (node.wait.Some? ==>
         var w := node.wait.value;
         && node.kind == External
         && NonBlank(w.caption) && NonBlank(w.thread) && NonBlank(w.logFile) && NonBlank(w.lockFile)
         && NonBlank(w.startupFile) && NonBlank(w.watchId) && SingleLine(w.eventNote)
         && node.status == (if w.phase == Prepared then Running else Waiting))
    && (node.wait.None? ==> node.status != Waiting)
    && ValidWatchEvent(node.lastEvent)
  }

  predicate ValidLifecycle(node: Node) {
    && (node.status in {Running, Waiting, Completed} ==> node.startedAt.Some?)
    && (node.status in {Pending, Dispatching} ==> node.startedAt.None?)
    && (node.status == Dispatching ==> node.kind == Agent)
    && (node.status == Completed ==>
         && node.result.Some? && NonBlank(node.result.value)
         && node.completedAt.Some?
         && MissingArtifacts(node, node.artifacts) == {})
    && (node.status != Completed ==> node.completedAt.None? && node.artifacts == [])
    && (node.status == Failed ==> node.result.Some? && NonBlank(node.result.value) && node.failedAt.Some?)
    && (node.status !in {Completed, Failed} ==> node.result.None?)
    && (node.status != Failed ==> node.failedAt.None?)
  }

  // The phase an agent node's assignment must have, given how far the node has got.
  function ExpectedPhase(node: Node): Option<Phase> {
    if node.status == Dispatching
       || (node.status == Cancelled && node.assignment.Some? && node.assignment.value.phase == Prepared)
    then Some(Prepared)
    else if node.startedAt.Some? then Some(Active)
    else None
  }

  predicate ValidAssignment(node: Node) {
    && (node.assignment.Some? ==>
         var a := node.assignment.value;
         && node.kind == Agent
         && NonBlank(a.token)
         && (a.phase == Active ==> a.agentId.Some? && NonBlank(a.agentId.value) && a.assignedAt.Some?)
         && (a.phase == Prepared ==> a.agentId.None? && a.assignedAt.None?))
    && (node.kind == Agent ==>
         ExpectedPhase(node) == if node.assignment.Some? then Some(node.assignment.value.phase) else None)
  }

  predicate ValidAttempt(attempt: Attempt) {
    && attempt.result.Some? && NonBlank(attempt.result.value)
    && attempt.failedAt.Some?
    && (attempt.assignment.Some? ==>
         var a := attempt.assignment.value;
         a.agentId.Some? && NonBlank(a.agentId.value) && a.assignedAt.Some?)
    && ValidWatchEvent(attempt.lastEvent)
  }

  predicate ValidShape(id: NodeId, node: Node) {
    && ValidNodeId(id)
    && NonBlank(node.title)
    && AllNonBlank(node.dependsOn)
    && AllNonBlank(node.acceptance)
    && (node.readOnly ==> node.writePaths == [])
    && (forall name :: name in node.inputs ==> NonBlank(name) && NonBlank(node.inputs[name]))
    && AllNonBlank(node.expectedArtifacts)
    && AllNonBlank(node.artifacts)
    && OptionNonBlank(node.result)
  }

  predicate ValidReferences(node: Node, ids: set<NodeId>) {
    && (forall d :: d in node.dependsOn ==> d in ids)
    && (forall name :: name in node.inputs ==> node.inputs[name] in node.dependsOn)
  }

  predicate ValidNode(id: NodeId, node: Node, ids: set<NodeId>) {
    && ValidShape(id, node)
    && ValidLifecycle(node)
    && ValidAssignment(node)
    && (forall a :: a in node.attempts ==> ValidAttempt(a))
    && ValidReferences(node, ids)
    && ValidWait(node)
  }

  function EntryNode(entry: Entry): Option<NodeId> {
    if entry.LogInit? || entry.LogVerify? || entry.LogPause? || entry.LogResume? || entry.LogCancel? || entry.LogFinish?
    then None else Some(entry.id)
  }

  predicate ValidEvents(events: seq<Event>) {
    && events != [] && events[0].entry == LogInit
    && (forall i :: 0 <= i < |events| ==> events[i].seqNo == i + 1)
    && (forall i :: 0 <= i < |events| ==> OptionNonBlank(EntryNode(events[i].entry)))
  }

  predicate AllCompleted(nodes: map<NodeId, Node>) {
    nodes != map[] && forall id :: id in nodes ==> nodes[id].status == Completed
  }

  predicate ValidVerification(g: Goal) {
    g.verification.Some? ==>
      && NonBlank(g.verification.value.summary)
      && g.verification.value.checks != [] && AllNonBlank(g.verification.value.checks)
      && AllCompleted(g.nodes)
  }

  predicate ValidEnding(g: Goal) {
    && (g.status == GoalCompleted ==>
         g.verification.Some? && g.result.Some? && NonBlank(g.result.value) && g.completedAt.Some?)
    && (g.status != GoalCompleted ==> g.result.None? && g.completedAt.None?)
  }

  // Everything `validate` checks before it looks for cycles.
  predicate ValidParts(g: Goal) {
    && NonBlank(g.objective)
    && OptionNonBlank(g.thread)
    && (forall id :: id in g.nodes ==> ValidNode(id, g.nodes[id], g.nodes.Keys))
    && ValidEvents(g.events)
    && ValidVerification(g)
    && ValidEnding(g)
  }

  ghost predicate ValidGoal(g: Goal) {
    ValidParts(g) && Graph.Acyclic(DepGraph(g.nodes))
  }
}
