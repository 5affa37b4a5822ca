// The operations on a goal, as functions from one state to the next, and the
// transaction that commits them.
module GoalOps {
  import opened Base
  import opened Paths
  import opened GoalModel

  datatype GoalError =
    | BadArgument | GoalNotOpen | GoalNotPaused | GoalIsCompleted | UnknownNode | NodeExists
    | MissingDependencies | WrongKind | WrongStatus | NotReady | WriteConflict | DispatchUnresolved
    | TokenMismatch | WaitExists | NoWait | WatchMismatch | ReceiptUnavailable | ReceiptMismatch
    | ReceiptExpired | LockLost | EventReused | ArtifactsMissing | NoNodes | IncompleteNodes
    | NotVerified | InvalidState

  // The startup receipt a watcher leaves; an unusable deadline is None.
  datatype Receipt = Receipt(started: bool, eventId: string, goalNode: NodeId, client: Client, thread: string,
                             logFile: string, lockFile: string, deadline: Option<Time>)

  datatype Command =
    | Edit(id: NodeId, title: string, dependsOn: seq<NodeId>, acceptance: seq<string>)
    | Add(id: NodeId, title: string, kind: NodeKind, dependsOn: seq<NodeId>, before: Option<NodeId>,
          acceptance: seq<string>, readOnly: bool, writePaths: seq<Path>, inputs: map<string, NodeId>,
          expectedArtifacts: seq<string>, reason: Option<string>)
    | PrepareAgent(id: NodeId, token: string)
    | Start(id: NodeId, agentId: Option<string>, dispatchToken: Option<string>)
    | AbortAgent(id: NodeId, token: string)
    | PrepareWait(id: NodeId, caption: string, eventNote: string, logFile: string, lockFile: string,
                  startupFile: string, watchId: string)
    | ActivateWait(id: NodeId, watchId: string, receipt: Option<Receipt>, lockHeld: bool)
    | AbortWait(id: NodeId, watchId: string)
    | Wake(id: NodeId, watchId: string, event: WaitEvent, status: Option<string>)
    | Complete(id: NodeId, summary: string, artifacts: seq<string>)
    | Fail(id: NodeId, summary: string)
    | Retry(id: NodeId)
    | Verify(summary: string, checks: seq<string>)
    | Pause
    | Resume
    | Cancel
    | Finish(summary: string)

  type Outcome = Result<Goal, GoalError>

  function SetNode(g: Goal, id: NodeId, node: Node): Goal {
    g.(nodes := g.nodes[id := node])
  }

  function Record(g: Goal, entry: Entry, now: Time): Goal {
    g.(events := g.events + [Event(|g.events| + 1, now, entry, None)])
  }

  function Create(objective: string, thread: Option<string>, client: Client, now: Time): Goal {
    Record(Goal(objective, GoalOpen, client, thread, None, now, now, map[], [], None, None), LogInit, now)
  }

  function EditNode(g: Goal, id: NodeId, title: string, dependsOn: seq<NodeId>, acceptance: seq<string>, now: Time): Outcome {
    if id !in g.nodes then Err(UnknownNode)
    else
      var node := g.nodes[id];
      if g.status != GoalOpen || node.status != Pending then Err(WrongStatus)
      else
        Ok(Record(SetNode(g, id, node.(title := title, dependsOn := dependsOn, acceptance := acceptance)), LogEdit(id), now))
  }

  function NewNode(title: string, kind: NodeKind, dependsOn: seq<NodeId>, acceptance: seq<string>, readOnly: bool,
                   writePaths: seq<Path>, inputs: map<string, NodeId>, expectedArtifacts: seq<string>): Node {
    Node(title, kind, Dedup(dependsOn), Pending, Dedup(acceptance), readOnly, Dedup(writePaths), inputs,
         Dedup(expectedArtifacts), [], None, None, None, None, [], None, None, None)
  }

  // The successor an insertion goes in front of; an empty name means none.
  function Target(before: Option<NodeId>): Option<NodeId> {
    if before.Some? && before.value != "" then before else None
  }

  function AddNode(g: Goal, c: Command, now: Time): Outcome
    requires c.Add?
  {
    if !ValidNodeId(c.id) then Err(BadArgument)
    else if g.status != GoalOpen then Err(GoalNotOpen)
    else if !OptionNonBlank(c.reason) then Err(BadArgument)
    else if c.id in g.nodes then Err(NodeExists)
    else if exists d :: d in c.dependsOn && d !in g.nodes then Err(MissingDependencies)
    else
      var target := Target(c.before);
      if target.Some? && target.value !in g.nodes then Err(UnknownNode)
      else if target.Some? && g.nodes[target.value].status != Pending then Err(WrongStatus)
      else
        var node := NewNode(c.title, c.kind, c.dependsOn, c.acceptance, c.readOnly, c.writePaths, c.inputs, c.expectedArtifacts);
        var g1 := SetNode(g, c.id, node);
        var g2 := if target.None? then g1
                  else
                    var t := g.nodes[target.value];
                    SetNode(g1, target.value, t.(dependsOn := Dedup(t.dependsOn + [c.id])));
        Ok(Record(g2.(verification := None), LogAdd(c.id, node.dependsOn, c.kind, c.before, c.reason), now))
  }

  function PrepareDispatch(g: Goal, id: NodeId, token: string, now: Time): Outcome {
    if g.status != GoalOpen then Err(GoalNotOpen)
    else if HasStatus(g.nodes, Dispatching) then Err(DispatchUnresolved)
    else if id !in g.nodes then Err(UnknownNode)
    else
      var node := g.nodes[id];
      if node.kind != Agent then Err(WrongKind)
      else if !NodeIsReady(node, g.nodes) then Err(NotReady)
      else if ConflictsWithActive(node, g.nodes) then Err(WriteConflict)
      else
        var assignment := Assignment(Prepared, token, now, None, None);
        Ok(Record(SetNode(g, id, node.(status := Dispatching, assignment := Some(assignment))), LogPrepareAgent(id, token), now))
  }

  function StartNode(g: Goal, id: NodeId, agentId: Option<string>, token: Option<string>, now: Time): Outcome {
    if g.status != GoalOpen then Err(GoalNotOpen)
    else if id !in g.nodes then Err(UnknownNode)
    else
      var node := g.nodes[id];
      if node.kind == Agent then
        if node.status != Dispatching || node.assignment.None? then Err(WrongStatus)
        else if agentId.None? || !NonBlank(agentId.value) || token.None? || !NonBlank(token.value) then Err(BadArgument)
        else if node.assignment.value.token != token.value then Err(TokenMismatch)
        else
          var assignment := node.assignment.value.(phase := Active, agentId := agentId, assignedAt := Some(now));
          Ok(Record(SetNode(g, id, node.(assignment := Some(assignment), status := Running, startedAt := Some(now))), LogStart(id), now))
      else if agentId.Some? || token.Some? then Err(BadArgument)
      else if HasStatus(g.nodes, Dispatching) then Err(DispatchUnresolved)
      else if !NodeIsReady(node, g.nodes) then Err(NotReady)
      else if ConflictsWithActive(node, g.nodes) then Err(WriteConflict)
      else Ok(Record(SetNode(g, id, node.(status := Running, startedAt := Some(now))), LogStart(id), now))
  }

  function AbortDispatch(g: Goal, id: NodeId, token: string, now: Time): Outcome {
    if g.status != GoalOpen then Err(GoalNotOpen)
    else if id !in g.nodes then Err(UnknownNode)
    else
      var node := g.nodes[id];
      if node.kind != Agent || node.status != Dispatching || node.assignment.None? then Err(WrongStatus)
      else if node.assignment.value.token != token then Err(TokenMismatch)
      else Ok(Record(SetNode(g, id, node.(status := Pending, assignment := None)), LogAbortAgent(id, token), now))
  }

  function PrepareExternalWait(g: Goal, c: Command, now: Time): Outcome
    requires c.PrepareWait?
  {
    if g.status != GoalOpen then Err(GoalNotOpen)
    else if g.thread.None? || !NonBlank(g.thread.value) then Err(BadArgument)
    else if c.id !in g.nodes then Err(UnknownNode)
    else
      var node := g.nodes[c.id];
      if node.kind != External then Err(WrongKind)
      else if node.status != Running then Err(WrongStatus)
      else if node.wait.Some? then Err(WaitExists)
      else
        var wait := Wait(c.caption, c.eventNote, g.client, g.thread.value, c.logFile, c.lockFile, c.startupFile, now, c.watchId, Prepared);
        Ok(Record(SetNode(g, c.id, node.(wait := Some(wait))), LogPrepareWait(c.id, c.watchId), now))
  }

  predicate ReceiptMatches(r: Receipt, wait: Wait, id: NodeId, watchId: string) {
    && r.started && r.eventId == watchId && r.goalNode == id && r.client == wait.client && r.thread == wait.thread
    && r.logFile == wait.logFile && r.lockFile == wait.lockFile && r.deadline.Some?
  }

  function ActivateExternalWait(g: Goal, id: NodeId, watchId: string, receipt: Option<Receipt>, lockHeld: bool, now: Time): Outcome {
    if g.status != GoalOpen then Err(GoalNotOpen)
    else if id !in g.nodes then Err(UnknownNode)
    else
      var node := g.nodes[id];
      if node.status != Running || node.wait.None? then Err(NoWait)
      else
        var wait := node.wait.value;
        if wait.phase != Prepared then Err(WaitExists)
        else if wait.watchId != watchId then Err(WatchMismatch)
        else if receipt.None? then Err(ReceiptUnavailable)
        else if !ReceiptMatches(receipt.value, wait, id, watchId) then Err(ReceiptMismatch)
        else if now > receipt.value.deadline.value then Err(ReceiptExpired)
        else if !lockHeld then Err(LockLost)
        else
          Ok(Record(SetNode(g, id, node.(wait := Some(wait.(phase := Active)), status := Waiting)), LogActivateWait(id, watchId), now))
  }

  function AbortExternalWait(g: Goal, id: NodeId, watchId: string, now: Time): Outcome {
    if g.status != GoalOpen && g.status != GoalPaused then Err(GoalNotOpen)
    else if id !in g.nodes then Err(UnknownNode)
    else
      var node := g.nodes[id];
      if node.kind != External || !IsActive(node) || node.wait.None? then Err(NoWait)
      else if node.wait.value.watchId != watchId then Err(WatchMismatch)
      else Ok(Record(SetNode(g, id, node.(status := Running, wait := None)), LogAbortWait(id, watchId), now))
  }

  function WakeNode(g: Goal, id: NodeId, watchId: string, event: WaitEvent, status: Option<string>, now: Time): Outcome {
    if id !in g.nodes then Err(UnknownNode)
    else
      var node := g.nodes[id];
      if node.lastEvent.Some? && node.lastEvent.value.eventId == watchId then
        if node.lastEvent.value.event != event || node.lastEvent.value.status != status then Err(EventReused)
        else Ok(g)
      else if node.kind != External then Err(WrongKind)
      else if node.status != Waiting || node.wait.None? then Err(WrongStatus)
      else if watchId != node.wait.value.watchId then Err(WatchMismatch)
      else
        var last := WatchEvent(watchId, event, status, now);
        Ok(Record(SetNode(g, id, node.(lastEvent := Some(last), status := Running, wait := None)), LogWake(id, watchId, event, status), now))
  }

  function CompleteNode(g: Goal, id: NodeId, summary: string, artifacts: seq<string>, now: Time): Outcome {
    if id !in g.nodes then Err(UnknownNode)
    else
      var node := g.nodes[id];
      var supplied := Dedup(artifacts);
      if node.status != Running then Err(WrongStatus)
      else if MissingArtifacts(node, supplied) != {} then Err(ArtifactsMissing)
      else
        var done := node.(status := Completed, result := Some(summary), artifacts := supplied, completedAt := Some(now));
        Ok(Record(SetNode(g, id, done).(verification := None), LogComplete(id, supplied), now))
  }

  function FailNode(g: Goal, id: NodeId, summary: string, now: Time): Outcome {
    if id !in g.nodes then Err(UnknownNode)
    else
      var node := g.nodes[id];
      if node.status in {Completed, Failed, Cancelled} then Err(WrongStatus)
      else if node.status == Dispatching then Err(DispatchUnresolved)
      else
        var failed := node.(status := Failed, result := Some(summary), failedAt := Some(now), wait := None);
        Ok(Record(SetNode(g, id, failed).(verification := None), LogFail(id), now))
  }

  function RetryNode(g: Goal, id: NodeId, now: Time): Outcome {
    if g.status != GoalOpen then Err(GoalNotOpen)
    else if id !in g.nodes then Err(UnknownNode)
    else
      var node := g.nodes[id];
      if node.status != Failed then Err(WrongStatus)
      else
        var attempt := Attempt(node.result, node.failedAt, node.startedAt, node.assignment, node.lastEvent);
        var again := node.(attempts := node.attempts + [attempt], status := Pending, result := None, wait := None,
                           lastEvent := None, assignment := None, startedAt := None, failedAt := None);
        Ok(Record(SetNode(g, id, again).(verification := None), LogRetry(id), now))
  }

  function VerifyGoal(g: Goal, summary: string, checks: seq<string>, now: Time): Outcome {
    if g.status != GoalOpen then Err(GoalNotOpen)
    else if g.nodes == map[] then Err(NoNodes)
    else if !AllCompleted(g.nodes) then Err(IncompleteNodes)
    else Ok(Record(g.(verification := Some(Verification(summary, Dedup(checks), now))), LogVerify(checks), now))
  }

  function PauseGoal(g: Goal, now: Time): Outcome {
    if g.status != GoalOpen then Err(GoalNotOpen) else Ok(Record(g.(status := GoalPaused), LogPause, now))
  }

  function ResumeGoal(g: Goal, now: Time): Outcome {
    if g.status != GoalPaused then Err(GoalNotPaused) else Ok(Record(g.(status := GoalOpen), LogResume, now))
  }

  function CancelledNode(node: Node): Node {
    if node.status in {Completed, Failed} then node else node.(status := Cancelled, wait := None)
  }

  function CancelGoal(g: Goal, now: Time): Outcome {
    if g.status == GoalCompleted then Err(GoalIsCompleted)
    else
      Ok(Record(g.(status := GoalCancelled, nodes := map id | id in g.nodes :: CancelledNode(g.nodes[id])), LogCancel, now))
  }

  function FinishGoal(g: Goal, summary: string, now: Time): Outcome {
    if g.status != GoalOpen then Err(GoalNotOpen)
    else if g.verification.None? then Err(NotVerified)
    else Ok(Record(g.(status := GoalCompleted, result := Some(summary), completedAt := Some(now)), LogFinish, now))
  }

  function Apply(g: Goal, c: Command, now: Time): Outcome {
    match c
    case Edit(id, title, dependsOn, acceptance) => EditNode(g, id, title, dependsOn, acceptance, now)
    case Add(_, _, _, _, _, _, _, _, _, _, _) => AddNode(g, c, now)
    case PrepareAgent(id, token) => PrepareDispatch(g, id, token, now)
    case Start(id, agentId, token) => StartNode(g, id, agentId, token, now)
    case AbortAgent(id, token) => AbortDispatch(g, id, token, now)
    case PrepareWait(_, _, _, _, _, _, _) => PrepareExternalWait(g, c, now)
    case ActivateWait(id, watchId, receipt, lockHeld) => ActivateExternalWait(g, id, watchId, receipt, lockHeld, now)
    case AbortWait(id, watchId) => AbortExternalWait(g, id, watchId, now)
    case Wake(id, watchId, event, status) => WakeNode(g, id, watchId, event, status, now)
    case Complete(id, summary, artifacts) => CompleteNode(g, id, summary, artifacts, now)
    case Fail(id, summary) => FailNode(g, id, summary, now)
    case Retry(id) => RetryNode(g, id, now)
    case Verify(summary, checks) => VerifyGoal(g, summary, checks, now)
    case Pause => PauseGoal(g, now)
    case Resume => ResumeGoal(g, now)
    case Cancel => CancelGoal(g, now)
    case Finish(summary) => FinishGoal(g, summary, now)
  }

  // Events recorded during an edit carry the edit's source.
  function Stamp(g: Goal, from: nat, source: string): Goal
    requires from <= |g.events|
  {
    g.(events := seq(|g.events|, i requires 0 <= i < |g.events| =>
         if i < from then g.events[i] else g.events[i].(source := Some(source))))
  }

  // What a command writes to the log when it changes anything.
  function EntryFor(c: Command): Entry {
    match c
    case Edit(id, _, _, _) => LogEdit(id)
    case Add(id, _, kind, dependsOn, before, _, _, _, _, _, reason) => LogAdd(id, Dedup(dependsOn), kind, before, reason)
    case PrepareAgent(id, token) => LogPrepareAgent(id, token)
    case Start(id, _, _) => LogStart(id)
    case AbortAgent(id, token) => LogAbortAgent(id, token)
    case PrepareWait(id, _, _, _, _, _, watchId) => LogPrepareWait(id, watchId)
    case ActivateWait(id, watchId, _, _) => LogActivateWait(id, watchId)
    case AbortWait(id, watchId) => LogAbortWait(id, watchId)
    case Wake(id, watchId, event, status) => LogWake(id, watchId, event, status)
    case Complete(id, _, artifacts) => LogComplete(id, Dedup(artifacts))
    case Fail(id, _) => LogFail(id)
    case Retry(id) => LogRetry(id)
    case Verify(_, checks) => LogVerify(checks)
    case Pause => LogPause
    case Resume => LogResume
    case Cancel => LogCancel
    case Finish(_) => LogFinish
  }

  // An operation leaves the goal exactly as it was, or adds one numbered entry that names it.
  lemma ApplyLogs(g: Goal, c: Command, now: Time)
    requires Apply(g, c, now).Ok?
    ensures var h := Apply(g, c, now).value;
            h == g || h.events == g.events + [Event(|g.events| + 1, now, EntryFor(c), None)]
  {
    if c.Add? {
      AddLogs(g, c, now);
    }
  }

  lemma AddLogs(g: Goal, c: Command, now: Time)
    requires c.Add? && AddNode(g, c, now).Ok?
    ensures AddNode(g, c, now).value.events == g.events + [Event(|g.events| + 1, now, EntryFor(c), None)]
  {
  }

  // `GoalStore.edit`: operation, then `validate`, then one atomic write, or nothing at all.
  ghost function Commit(g: Goal, c: Command, source: string, now: Time): Outcome {
    match Apply(g, c, now)
    case Err(e) => Err(e)
    case Ok(h) =>
      ApplyLogs(g, c, now);
      if h == g then Ok(g)
      else
        var stamped := Stamp(h, |g.events|, source);
        if ValidGoal(stamped) then Ok(stamped.(updatedAt := now)) else Err(InvalidState)
  }
}
