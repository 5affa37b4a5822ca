// The object that carries a goal through one edit, updated in place, and the store that
// makes an edit a transaction on the goal file.
module GoalGraph {
  import opened Base
  import opened Paths
  import Graph
  import opened GoalModel
  import opened GoalOps

  // The state an operation leaves behind: its result, or the state it was refused in.
  function After(before: Goal, outcome: Outcome): Goal {
    if outcome.Ok? then outcome.value else before
  }

  function Refusal(outcome: Outcome): Option<GoalError> {
    if outcome.Ok? then None else Some(outcome.error)
  }

  // Lists the nodes in whatever order the file has them.
  method Listing(nodes: map<NodeId, Node>) returns (order: seq<NodeId>)
    ensures forall id :: id in order <==> id in nodes
    ensures forall i, j :: 0 <= i < j < |order| ==> order[i] != order[j]
  {
    order := [];
    var rest := nodes.Keys;
    while rest != {}
      invariant rest <= nodes.Keys
      invariant forall id :: id in order <==> id in nodes && id !in rest
      invariant forall i, j :: 0 <= i < j < |order| ==> order[i] != order[j]
      decreases rest
    {
      var id :| id in rest;
      order := order + [id];
      rest := rest - {id};
    }
  }

  class GoalGraph {
    var state: Goal

    constructor (state: Goal)
      ensures this.state == state
    {
      this.state := state;
    }

    method RecordEvent(entry: Entry, now: Time)
      modifies this
      ensures state == Record(old(state), entry, now)
    {
      var event := Event(|state.events| + 1, now, entry, None);
      state := state.(events := state.events + [event]);
    }

    method UpdateNode(id: NodeId, node: Node)
      modifies this
      ensures state == SetNode(old(state), id, node)
    {
      state := state.(nodes := state.nodes[id := node]);
    }

    // `validate`
    method Validate() returns (ok: bool)
      ensures ok <==> ValidGoal(state)
    {
      if !NonBlank(state.objective) || !OptionNonBlank(state.thread) {
        return false;
      }
      var order := Listing(state.nodes);
      for i := 0 to |order|
        invariant forall j :: 0 <= j < i ==> ValidNode(order[j], state.nodes[order[j]], state.nodes.Keys)
      {
        if !ValidNode(order[i], state.nodes[order[i]], state.nodes.Keys) {
          return false;
        }
      }
      if !ValidEvents(state.events) || !ValidVerification(state) || !ValidEnding(state) {
        return false;
      }
      var graph := DepGraph(state.nodes);
      assert Graph.Closed(graph) by {
        forall x, d | x in graph && d in graph[x] ensures d in graph {
          assert ValidNode(x, state.nodes[x], state.nodes.Keys);
        }
      }
      var found := Graph.FindCycle(graph, order);
      return found.None?;
    }

    method EditNode(id: NodeId, title: string, dependsOn: seq<NodeId>, acceptance: seq<string>, now: Time)
      returns (e: Option<GoalError>)
      modifies this
      ensures var o := GoalOps.EditNode(old(state), id, title, dependsOn, acceptance, now);
              state == After(old(state), o) && e == Refusal(o)
    {
      if id !in state.nodes {
        return Some(UnknownNode);
      }
      var node := state.nodes[id];
      if state.status != GoalOpen || node.status != Pending {
        return Some(WrongStatus);
      }
      UpdateNode(id, node.(title := title, dependsOn := dependsOn, acceptance := acceptance));
      RecordEvent(LogEdit(id), now);
      return None;
    }

    method AddNode(c: Command, now: Time) returns (e: Option<GoalError>)
      requires c.Add?
      modifies this
      ensures var o := GoalOps.AddNode(old(state), c, now);
              state == After(old(state), o) && e == Refusal(o)
    {
      if !ValidNodeId(c.id) {
        return Some(BadArgument);
      }
      if state.status != GoalOpen {
        return Some(GoalNotOpen);
      }
      if !OptionNonBlank(c.reason) {
        return Some(BadArgument);
      }
      if c.id in state.nodes {
        return Some(NodeExists);
      }
      if exists d :: d in c.dependsOn && d !in state.nodes {
        return Some(MissingDependencies);
      }
      var target := Target(c.before);
      if target.Some? {
        if target.value !in state.nodes {
          return Some(UnknownNode);
        }
        if state.nodes[target.value].status != Pending {
          return Some(WrongStatus);
        }
      }
      var node := NewNode(c.title, c.kind, c.dependsOn, c.acceptance, c.readOnly, c.writePaths, c.inputs, c.expectedArtifacts);
      UpdateNode(c.id, node);
      if target.Some? {
        var successor := state.nodes[target.value];
        UpdateNode(target.value, successor.(dependsOn := Dedup(successor.dependsOn + [c.id])));
      }
      state := state.(verification := None);
      RecordEvent(LogAdd(c.id, node.dependsOn, c.kind, c.before, c.reason), now);
      return None;
    }

    method PrepareAgent(id: NodeId, token: string, now: Time) returns (e: Option<GoalError>)
      modifies this
      ensures var o := PrepareDispatch(old(state), id, token, now);
              state == After(old(state), o) && e == Refusal(o)
    {
      if state.status != GoalOpen {
        return Some(GoalNotOpen);
      }
      if HasStatus(state.nodes, Dispatching) {
        return Some(DispatchUnresolved);
      }
      if id !in state.nodes {
        return Some(UnknownNode);
      }
      var node := state.nodes[id];
      if node.kind != Agent {
        return Some(WrongKind);
      }
      if !NodeIsReady(node, state.nodes) {
        return Some(NotReady);
      }
      if ConflictsWithActive(node, state.nodes) {
        return Some(WriteConflict);
      }
      node := node.(status := Dispatching);
      node := node.(assignment := Some(Assignment(Prepared, token, now, None, None)));
      UpdateNode(id, node);
      RecordEvent(LogPrepareAgent(id, token), now);
      return None;
    }

    method StartNode(id: NodeId, agentId: Option<string>, token: Option<string>, now: Time) returns (e: Option<GoalError>)
      modifies this
      ensures var o := GoalOps.StartNode(old(state), id, agentId, token, now);
              state == After(old(state), o) && e == Refusal(o)
    {
      if state.status != GoalOpen {
        return Some(GoalNotOpen);
      }
      if id !in state.nodes {
        return Some(UnknownNode);
      }
      var node := state.nodes[id];
      if node.kind == Agent {
        if node.status != Dispatching || node.assignment.None? {
          return Some(WrongStatus);
        }
        if agentId.None? || !NonBlank(agentId.value) || token.None? || !NonBlank(token.value) {
          return Some(BadArgument);
        }
        var assignment := node.assignment.value;
        if assignment.token != token.value {
          return Some(TokenMismatch);
        }
        node := node.(assignment := Some(assignment.(phase := Active, agentId := agentId, assignedAt := Some(now))));
      } else {
        if agentId.Some? || token.Some? {
          return Some(BadArgument);
        }
        if HasStatus(state.nodes, Dispatching) {
          return Some(DispatchUnresolved);
        }
        if !NodeIsReady(node, state.nodes) {
          return Some(NotReady);
        }
        if ConflictsWithActive(node, state.nodes) {
          return Some(WriteConflict);
        }
      }
      node := node.(status := Running);
      node := node.(startedAt := Some(now));
      UpdateNode(id, node);
      RecordEvent(LogStart(id), now);
      return None;
    }

    method AbortAgent(id: NodeId, token: string, now: Time) returns (e: Option<GoalError>)
      modifies this
      ensures var o := AbortDispatch(old(state), id, token, now);
              state == After(old(state), o) && e == Refusal(o)
    {
      if state.status != GoalOpen {
        return Some(GoalNotOpen);
      }
      if id !in state.nodes {
        return Some(UnknownNode);
      }
      var node := state.nodes[id];
      if node.kind != Agent || node.status != Dispatching || node.assignment.None? {
        return Some(WrongStatus);
      }
      if node.assignment.value.token != token {
        return Some(TokenMismatch);
      }
      node := node.(status := Pending);
      node := node.(assignment := None);
      UpdateNode(id, node);
      RecordEvent(LogAbortAgent(id, token), now);
      return None;
    }

    method PrepareExternalWait(c: Command, now: Time) returns (e: Option<GoalError>)
      requires c.PrepareWait?
      modifies this
      ensures var o := GoalOps.PrepareExternalWait(old(state), c, now);
              state == After(old(state), o) && e == Refusal(o)
    {
      if state.status != GoalOpen {
        return Some(GoalNotOpen);
      }
      if state.thread.None? || !NonBlank(state.thread.value) {
        return Some(BadArgument);
      }
      if c.id !in state.nodes {
        return Some(UnknownNode);
      }
      var node := state.nodes[c.id];
      if node.kind != External {
        return Some(WrongKind);
      }
      if node.status != Running {
        return Some(WrongStatus);
      }
      if node.wait.Some? {
        return Some(WaitExists);
      }
      node := node.(wait := Some(Wait(c.caption, c.eventNote, state.client, state.thread.value,
                                      c.logFile, c.lockFile, c.startupFile, now, c.watchId, Prepared)));
      UpdateNode(c.id, node);
      RecordEvent(LogPrepareWait(c.id, c.watchId), now);
      return None;
    }

    method ActivateExternalWait(id: NodeId, watchId: string, receipt: Option<Receipt>, lockHeld: bool, now: Time)
      returns (e: Option<GoalError>)
      modifies this
      ensures var o := GoalOps.ActivateExternalWait(old(state), id, watchId, receipt, lockHeld, now);
              state == After(old(state), o) && e == Refusal(o)
    {
      if state.status != GoalOpen {
        return Some(GoalNotOpen);
      }
      if id !in state.nodes {
        return Some(UnknownNode);
      }
      var node := state.nodes[id];
      if node.status != Running || node.wait.None? {
        return Some(NoWait);
      }
      var wait := node.wait.value;
      if wait.phase != Prepared {
        return Some(WaitExists);
      }
      if wait.watchId != watchId {
        return Some(WatchMismatch);
      }
      if receipt.None? {
        return Some(ReceiptUnavailable);
      }
      if !ReceiptMatches(receipt.value, wait, id, watchId) {
        return Some(ReceiptMismatch);
      }
      if now > receipt.value.deadline.value {
        return Some(ReceiptExpired);
      }
      if !lockHeld {
        return Some(LockLost);
      }
      node := node.(wait := Some(wait.(phase := Active)));
      node := node.(status := Waiting);
      UpdateNode(id, node);
      RecordEvent(LogActivateWait(id, watchId), now);
      return None;
    }

    method AbortExternalWait(id: NodeId, watchId: string, now: Time) returns (e: Option<GoalError>)
      modifies this
      ensures var o := GoalOps.AbortExternalWait(old(state), id, watchId, now);
              state == After(old(state), o) && e == Refusal(o)
    {
      if state.status != GoalOpen && state.status != GoalPaused {
        return Some(GoalNotOpen);
      }
      if id !in state.nodes {
        return Some(UnknownNode);
      }
      var node := state.nodes[id];
      if node.kind != External || !IsActive(node) || node.wait.None? {
        return Some(NoWait);
      }
      if node.wait.value.watchId != watchId {
        return Some(WatchMismatch);
      }
      node := node.(status := Running);
      node := node.(wait := None);
      UpdateNode(id, node);
      RecordEvent(LogAbortWait(id, watchId), now);
      return None;
    }

    method WakeNode(id: NodeId, watchId: string, event: WaitEvent, status: Option<string>, now: Time)
      returns (e: Option<GoalError>, duplicate: bool)
      modifies this
      ensures var o := GoalOps.WakeNode(old(state), id, watchId, event, status, now);
              state == After(old(state), o) && e == Refusal(o)
      ensures duplicate ==> e.None? && state == old(state)
    {
      duplicate := false;
      if id !in state.nodes {
        e := Some(UnknownNode);
        return;
      }
      var node := state.nodes[id];
      if node.lastEvent.Some? && node.lastEvent.value.eventId == watchId {
        if node.lastEvent.value.event != event || node.lastEvent.value.status != status {
          e := Some(EventReused);
          return;
        }
        return None, true;
      }
      if node.kind != External {
        e := Some(WrongKind);
        return;
      }
      if node.status != Waiting || node.wait.None? {
        e := Some(WrongStatus);
        return;
      }
      if watchId != node.wait.value.watchId {
        e := Some(WatchMismatch);
        return;
      }
      node := node.(lastEvent := Some(WatchEvent(watchId, event, status, now)));
      node := node.(status := Running);
      node := node.(wait := None);
      UpdateNode(id, node);
      RecordEvent(LogWake(id, watchId, event, status), now);
      e := None;
    }

    method CompleteNode(id: NodeId, summary: string, artifacts: seq<string>, now: Time) returns (e: Option<GoalError>)
      modifies this
      ensures var o := GoalOps.CompleteNode(old(state), id, summary, artifacts, now);
              state == After(old(state), o) && e == Refusal(o)
    {
      if id !in state.nodes {
        return Some(UnknownNode);
      }
      var node := state.nodes[id];
      if node.status != Running {
        return Some(WrongStatus);
      }
      var supplied := Dedup(artifacts);
      if MissingArtifacts(node, supplied) != {} {
        return Some(ArtifactsMissing);
      }
      node := node.(status := Completed);
      node := node.(result := Some(summary));
      node := node.(artifacts := supplied);
      node := node.(completedAt := Some(now));
      UpdateNode(id, node);
      state := state.(verification := None);
      RecordEvent(LogComplete(id, supplied), now);
      return None;
    }

    method FailNode(id: NodeId, summary: string, now: Time) returns (e: Option<GoalError>)
      modifies this
      ensures var o := GoalOps.FailNode(old(state), id, summary, now);
              state == After(old(state), o) && e == Refusal(o)
    {
      if id !in state.nodes {
        return Some(UnknownNode);
      }
      var node := state.nodes[id];
      if node.status in {Completed, Failed, Cancelled} {
        return Some(WrongStatus);
      }
      if node.status == Dispatching {
        return Some(DispatchUnresolved);
      }
      node := node.(status := Failed);
      node := node.(result := Some(summary));
      node := node.(failedAt := Some(now));
      node := node.(wait := None);
      UpdateNode(id, node);
      state := state.(verification := None);
      RecordEvent(LogFail(id), now);
      return None;
    }

    method RetryNode(id: NodeId, now: Time) returns (e: Option<GoalError>)
      modifies this
      ensures var o := GoalOps.RetryNode(old(state), id, now);
              state == After(old(state), o) && e == Refusal(o)
    {
      if state.status != GoalOpen {
        return Some(GoalNotOpen);
      }
      if id !in state.nodes {
        return Some(UnknownNode);
      }
      var node := state.nodes[id];
      if node.status != Failed {
        return Some(WrongStatus);
      }
      var attempt := Attempt(node.result, node.failedAt, node.startedAt, node.assignment, node.lastEvent);
      node := node.(attempts := node.attempts + [attempt]);
      node := node.(status := Pending, result := None, wait := None, lastEvent := None, assignment := None);
      node := node.(startedAt := None, failedAt := None);
      UpdateNode(id, node);
      state := state.(verification := None);
      RecordEvent(LogRetry(id), now);
      return None;
    }

    method Verify(summary: string, checks: seq<string>, now: Time) returns (e: Option<GoalError>)
      modifies this
      ensures var o := VerifyGoal(old(state), summary, checks, now);
              state == After(old(state), o) && e == Refusal(o)
    {
      if state.status != GoalOpen {
        return Some(GoalNotOpen);
      }
      if state.nodes == map[] {
        return Some(NoNodes);
      }
      if exists id :: id in state.nodes && state.nodes[id].status != Completed {
        return Some(IncompleteNodes);
      }
      state := state.(verification := Some(Verification(summary, Dedup(checks), now)));
      RecordEvent(LogVerify(checks), now);
      return None;
    }

    method Pause(now: Time) returns (e: Option<GoalError>)
      modifies this
      ensures var o := PauseGoal(old(state), now);
              state == After(old(state), o) && e == Refusal(o)
    {
      if state.status != GoalOpen {
        return Some(GoalNotOpen);
      }
      state := state.(status := GoalPaused);
      RecordEvent(LogPause, now);
      return None;
    }

    method Resume(now: Time) returns (e: Option<GoalError>)
      modifies this
      ensures var o := ResumeGoal(old(state), now);
              state == After(old(state), o) && e == Refusal(o)
    {
      if state.status != GoalPaused {
        return Some(GoalNotPaused);
      }
      state := state.(status := GoalOpen);
      RecordEvent(LogResume, now);
      return None;
    }

    method CancelNodes()
      modifies this
      ensures state == old(state).(nodes := map id | id in old(state).nodes :: CancelledNode(old(state).nodes[id]))
    {
      ghost var before := state;
      var nodes := state.nodes;
      var order := Listing(nodes);
      for i := 0 to |order|
        invariant nodes.Keys == before.nodes.Keys
        invariant forall j :: 0 <= j < i ==> nodes[order[j]] == CancelledNode(before.nodes[order[j]])
        invariant forall j :: i <= j < |order| ==> nodes[order[j]] == before.nodes[order[j]]
      {
        var node := nodes[order[i]];
        if node.status !in {Completed, Failed} {
          node := node.(status := Cancelled);
          node := node.(wait := None);
          nodes := nodes[order[i] := node];
        }
      }
      assert nodes == map id | id in before.nodes :: CancelledNode(before.nodes[id]);
      state := state.(nodes := nodes);
    }

    method Cancel(now: Time) returns (e: Option<GoalError>)
      modifies this
      ensures var o := CancelGoal(old(state), now);
              state == After(old(state), o) && e == Refusal(o)
    {
      if state.status == GoalCompleted {
        return Some(GoalIsCompleted);
      }
      state := state.(status := GoalCancelled);
      CancelNodes();
      RecordEvent(LogCancel, now);
      return None;
    }

    method Finish(summary: string, now: Time) returns (e: Option<GoalError>)
      modifies this
      ensures var o := FinishGoal(old(state), summary, now);
              state == After(old(state), o) && e == Refusal(o)
    {
      if state.status != GoalOpen {
        return Some(GoalNotOpen);
      }
      if state.verification.None? {
        return Some(NotVerified);
      }
      state := state.(status := GoalCompleted);
      state := state.(result := Some(summary));
      state := state.(completedAt := Some(now));
      RecordEvent(LogFinish, now);
      return None;
    }

    // Marks the events from one position on with their source.
    method StampFrom(from: nat, source: string)
      requires from <= |state.events|
      modifies this
      ensures state == Stamp(old(state), from, source)
    {
      var events := state.events;
      for i := from to |events|
        invariant |events| == |state.events|
        invariant forall j :: 0 <= j < |events| ==>
          events[j] == if from <= j < i then state.events[j].(source := Some(source)) else state.events[j]
      {
        events := events[i := events[i].(source := Some(source))];
      }
      assert events == Stamp(state, from, source).events;
      state := state.(events := events);
    }

    method Run(c: Command, now: Time) returns (e: Option<GoalError>)
      modifies this
      ensures var o := Apply(old(state), c, now);
              state == After(old(state), o) && e == Refusal(o)
    {
      var duplicate: bool;
      match c {
        case Edit(id, title, dependsOn, acceptance) => e := EditNode(id, title, dependsOn, acceptance, now);
        case Add(_, _, _, _, _, _, _, _, _, _, _) => e := AddNode(c, now);
        case PrepareAgent(id, token) => e := PrepareAgent(id, token, now);
        case Start(id, agentId, token) => e := StartNode(id, agentId, token, now);
        case AbortAgent(id, token) => e := AbortAgent(id, token, now);
        case PrepareWait(_, _, _, _, _, _, _) => e := PrepareExternalWait(c, now);
        case ActivateWait(id, watchId, receipt, lockHeld) => e := ActivateExternalWait(id, watchId, receipt, lockHeld, now);
        case AbortWait(id, watchId) => e := AbortExternalWait(id, watchId, now);
        case Wake(id, watchId, event, status) => e, duplicate := WakeNode(id, watchId, event, status, now);
        case Complete(id, summary, artifacts) => e := CompleteNode(id, summary, artifacts, now);
        case Fail(id, summary) => e := FailNode(id, summary, now);
        case Retry(id) => e := RetryNode(id, now);
        case Verify(summary, checks) => e := Verify(summary, checks, now);
        case Pause => e := Pause(now);
        case Resume => e := Resume(now);
        case Cancel => e := Cancel(now);
        case Finish(summary) => e := Finish(summary, now);
      }
    }
  }

  class GoalStore {
    var file: Goal

    constructor (file: Goal)
      ensures this.file == file
    {
      this.file := file;
    }

    // `edit`: load and validate, run the operation, and either write the validated result
    // or leave the file as it was.
    method Edit(c: Command, source: string, now: Time) returns (e: Option<GoalError>)
      modifies this
      ensures var o := if ValidGoal(old(file)) then Commit(old(file), c, source, now) else Err(InvalidState);
              file == After(old(file), o) && e == Refusal(o)
    {
      var graph := new GoalGraph(file);
      var ok := graph.Validate();
      if !ok {
        return Some(InvalidState);
      }
      e := graph.Run(c, now);
      if e.Some? {
        return;
      }
      ApplyLogs(file, c, now);
      if graph.state != file {
        graph.StampFrom(|file.events|, source);
        ok := graph.Validate();
        if !ok {
          return Some(InvalidState);
        }
        graph.state := graph.state.(updatedAt := now);
        file := graph.state;
      }
    }
  }
}
