// Exactly when a command on a goal is committed, and what every refusal says, in terms of the
// goal alone.
module GoalPermits {
  import opened Base
  import opened Paths
  import opened GoalModel
  import opened GoalOps
  import opened GoalSchedule
  import opened GoalLog
  import opened GoalRuns
  import opened GoalScopes
  import opened GoalValidity

  ghost predicate Has(g: Goal, id: NodeId, statuses: set<NodeStatus>) {
    id in g.nodes && g.nodes[id].status in statuses
  }

  // The goal is open, no dispatch is unresolved, all dependencies are completed, and the node may
  // run together with everything that is under way.
  ghost predicate MayBegin(g: Goal, id: NodeId) {
    && g.status == GoalOpen && Has(g, id, {Pending})
    && (forall y :: y in g.nodes ==> g.nodes[y].status != Dispatching)
    && (forall d :: d in g.nodes[id].dependsOn ==> Has(g, d, {Completed}))
    && (forall y :: y in g.nodes && g.nodes[y].status in {Running, Waiting} ==> MayRunTogether(g.nodes[id], g.nodes[y]))
  }

  ghost predicate HoldsWait(g: Goal, id: NodeId, watchId: string, phase: Phase) {
    && id in g.nodes && g.nodes[id].wait.Some?
    && g.nodes[id].wait.value.watchId == watchId && g.nodes[id].wait.value.phase == phase
  }

  // A receipt that a watcher started for exactly this wait left, before its deadline.
  ghost predicate ReceiptAnswers(wait: Wait, id: NodeId, receipt: Option<Receipt>, now: Time) {
    receipt.Some? && exists deadline ::
      now <= deadline
      && receipt.value == Receipt(true, wait.watchId, id, wait.client, wait.thread, wait.logFile, wait.lockFile, Some(deadline))
  }

  // What a caller can find out about a command before it is given.
  ghost predicate Permits(g: Goal, c: Command, now: Time) {
    match c
    case Edit(id, _, _, _) => g.status == GoalOpen && Has(g, id, {Pending})
    case Add(id, _, _, dependsOn, before, _, _, _, _, _, reason) =>
      && g.status == GoalOpen && ValidNodeId(id) && id !in g.nodes && OptionNonBlank(reason)
      && (forall d :: d in dependsOn ==> d in g.nodes)
      && (before.Some? && before.value != "" ==> Has(g, before.value, {Pending}))
    case PrepareAgent(id, _) => MayBegin(g, id) && g.nodes[id].kind == Agent
    case Start(id, agentId, token) =>
      id in g.nodes &&
      if g.nodes[id].kind == Agent then
        && g.status == GoalOpen && agentId.Some? && NonBlank(agentId.value)
        && token.Some? && HoldsToken(g.nodes, id, token.value)
      else MayBegin(g, id) && agentId.None? && token.None?
    case AbortAgent(id, token) => g.status == GoalOpen && HoldsToken(g.nodes, id, token)
    case PrepareWait(id, _, _, _, _, _, _) =>
      && g.status == GoalOpen && g.thread.Some?
      && Has(g, id, {Running}) && g.nodes[id].kind == External && g.nodes[id].wait.None?
    case ActivateWait(id, watchId, receipt, lockHeld) =>
      && g.status == GoalOpen && HoldsWait(g, id, watchId, Prepared) && lockHeld
      && ReceiptAnswers(g.nodes[id].wait.value, id, receipt, now)
    case AbortWait(id, watchId) =>
      g.status in {GoalOpen, GoalPaused} && (HoldsWait(g, id, watchId, Prepared) || HoldsWait(g, id, watchId, Phase.Active))
    case Wake(id, watchId, event, status) =>
      && (HoldsWait(g, id, watchId, Phase.Active) || RepeatsLast(g, id, watchId, event, status))
      && (id in g.nodes && g.nodes[id].lastEvent.Some? && g.nodes[id].lastEvent.value.eventId == watchId ==>
           RepeatsLast(g, id, watchId, event, status))
    case Complete(id, _, artifacts) =>
      Has(g, id, {Running}) && forall a :: a in g.nodes[id].expectedArtifacts ==> a in artifacts
    case Fail(id, _) => Has(g, id, {Pending, Running, Waiting})
    case Retry(id) => g.status == GoalOpen && Has(g, id, {Failed})
    case Verify(_, _) => g.status == GoalOpen && g.nodes != map[] && forall id :: id in g.nodes ==> g.nodes[id].status == Completed
    case Pause => g.status == GoalOpen
    case Resume => g.status == GoalPaused
    case Cancel => g.status != GoalCompleted
    case Finish(_) => g.status == GoalOpen && g.verification.Some?
  }

  lemma ReadyIff(g: Goal, id: NodeId)
    ensures MayBegin(g, id) <==>
      && g.status == GoalOpen && !HasStatus(g.nodes, Dispatching)
      && id in g.nodes && NodeIsReady(g.nodes[id], g.nodes) && !ConflictsWithActive(g.nodes[id], g.nodes)
  {
    if id in g.nodes {
      NothingActiveConflicts(g.nodes[id], g.nodes);
    }
  }

  lemma DispatchPasses(g: Goal, c: Command, now: Time)
    requires (c.PrepareAgent? || c.Start? || c.AbortAgent?) && ValidParts(g)
    ensures Apply(g, c, now).Ok? <==> Permits(g, c, now)
  {
    ReadyIff(g, c.id);
    if c.id in g.nodes {
      assert ValidNode(c.id, g.nodes[c.id], g.nodes.Keys);
    }
  }

  lemma ReceiptMatchesIff(r: Receipt, wait: Wait, id: NodeId, now: Time)
    ensures ReceiptAnswers(wait, id, Some(r), now) <==>
      ReceiptMatches(r, wait, id, wait.watchId) && now <= r.deadline.value
  {
  }

  lemma WaitPasses(g: Goal, c: Command, now: Time)
    requires (c.PrepareWait? || c.ActivateWait? || c.AbortWait? || c.Wake?) && ValidParts(g)
    ensures Apply(g, c, now).Ok? <==> Permits(g, c, now)
  {
    if c.id in g.nodes {
      assert ValidNode(c.id, g.nodes[c.id], g.nodes.Keys);
      if c.ActivateWait? && c.receipt.Some? && g.nodes[c.id].wait.Some? {
        ReceiptMatchesIff(c.receipt.value, g.nodes[c.id].wait.value, c.id, now);
      }
    }
  }

  lemma NothingMissing(node: Node, artifacts: seq<string>)
    ensures MissingArtifacts(node, Dedup(artifacts)) == {} <==> forall a :: a in node.expectedArtifacts ==> a in artifacts
  {
    if MissingArtifacts(node, Dedup(artifacts)) == {} {
      forall a | a in node.expectedArtifacts ensures a in artifacts {
        assert a !in MissingArtifacts(node, Dedup(artifacts));
      }
    }
  }

  lemma ResultPasses(g: Goal, c: Command, now: Time)
    requires c.Complete? || c.Fail? || c.Retry?
    ensures Apply(g, c, now).Ok? <==> Permits(g, c, now)
  {
    if c.Complete? && c.id in g.nodes {
      NothingMissing(g.nodes[c.id], c.artifacts);
    }
  }

  lemma OtherPasses(g: Goal, c: Command, now: Time)
    requires c.Edit? || c.Add? || c.Verify? || c.Pause? || c.Resume? || c.Cancel? || c.Finish?
    ensures Apply(g, c, now).Ok? <==> Permits(g, c, now)
  {
  }

  // The guards of a command pass exactly when it is permitted.
  lemma PassesIff(g: Goal, c: Command, now: Time)
    requires ValidParts(g)
    ensures Apply(g, c, now).Ok? <==> Permits(g, c, now)
  {
    if c.PrepareAgent? || c.Start? || c.AbortAgent? {
      DispatchPasses(g, c, now);
    } else if c.PrepareWait? || c.ActivateWait? || c.AbortWait? || c.Wake? {
      WaitPasses(g, c, now);
    } else if c.Complete? || c.Fail? || c.Retry? {
      ResultPasses(g, c, now);
    } else {
      OtherPasses(g, c, now);
    }
  }

  ghost predicate IsRepeat(g: Goal, c: Command) {
    c.Wake? && RepeatsLast(g, c.id, c.watchId, c.event, c.status)
  }

  // Everything but a repeated wake adds to the log.
  lemma ChangesUnlessRepeat(g: Goal, c: Command, now: Time)
    requires Apply(g, c, now).Ok?
    ensures Apply(g, c, now).value == g <==> IsRepeat(g, c)
  {
    if c.Wake? {
      WakeChangesUnlessRepeat(g, c, now);
    } else {
      AlwaysLogs(g, c, now);
    }
  }

  lemma WakeChangesUnlessRepeat(g: Goal, c: Command, now: Time)
    requires c.Wake? && WakeNode(g, c.id, c.watchId, c.event, c.status, now).Ok?
    ensures WakeNode(g, c.id, c.watchId, c.event, c.status, now).value == g <==> IsRepeat(g, c)
  {
    if !IsRepeat(g, c) {
      assert |WakeNode(g, c.id, c.watchId, c.event, c.status, now).value.events| == |g.events| + 1;
    }
  }

  lemma AlwaysLogs(g: Goal, c: Command, now: Time)
    requires !c.Wake? && Apply(g, c, now).Ok?
    ensures Apply(g, c, now).value != g
  {
    assert |Apply(g, c, now).value.events| == |g.events| + 1;
  }

  // On a valid goal a command is committed if and only if it is permitted and its arguments are
  // acceptable, or it repeats the last wake.
  lemma CommittedIff(g: Goal, c: Command, source: string, now: Time)
    requires ValidGoal(g)
    ensures Commit(g, c, source, now).Ok? <==> Permits(g, c, now) && (Acceptable(g, c) || IsRepeat(g, c))
  {
    PassesIff(g, c, now);
    if Apply(g, c, now).Ok? {
      ChangesUnlessRepeat(g, c, now);
      if Apply(g, c, now).value != g {
        CommitAcceptedIff(g, c, source, now);
      }
    }
  }

  // ---- What a refusal says ----------------------------------------------------------------------

  // The node a command names, or the one it puts a new node in front of.
  ghost predicate NamesUnknown(g: Goal, c: Command) {
    if c.Add? then c.before.Some? && c.before.value != "" && c.before.value !in g.nodes
    else ChangesOneNode(c) && c.id !in g.nodes
  }

  // The statuses in which a command accepts the node it names.
  function Accepted(c: Command): set<NodeStatus> {
    match c
    case Edit(_, _, _, _) => {Pending}
    case Add(_, _, _, _, _, _, _, _, _, _, _) => {Pending}
    case PrepareAgent(_, _) => {Pending}
    case Start(_, _, _) => {Pending, Dispatching}
    case AbortAgent(_, _) => {Dispatching}
    case Wake(_, _, _, _) => {Waiting}
    case Fail(_, _) => {Pending, Dispatching, Running, Waiting}
    case Retry(_) => {Failed}
    case _ => {Running}
  }

  // What each reason tells the caller about the goal and the command.
  ghost predicate IsTrue(e: GoalError, g: Goal, c: Command, now: Time) {
    match e
    case BadArgument => c.Add? || c.Start? || (c.PrepareWait? && g.thread.None?)
    case GoalNotOpen => g.status != GoalOpen && (c.AbortWait? ==> g.status != GoalPaused)
    case GoalNotPaused => c.Resume? && g.status != GoalPaused
    case GoalIsCompleted => c.Cancel? && g.status == GoalCompleted
    case UnknownNode => NamesUnknown(g, c)
    case NodeExists => c.Add? && c.id in g.nodes
    case MissingDependencies => c.Add? && exists d :: d in c.dependsOn && d !in g.nodes
    case WrongKind => (c.PrepareAgent? && g.nodes.Keys >= {c.id} && g.nodes[c.id].kind != Agent)
                      || ((c.PrepareWait? || c.Wake?) && g.nodes.Keys >= {c.id} && g.nodes[c.id].kind != External)
    case WrongStatus => IsMisplaced(g, c)
    case NotReady => (c.PrepareAgent? || c.Start?) && c.id in g.nodes
                     && (g.nodes[c.id].status != Pending || exists d :: d in g.nodes[c.id].dependsOn && !Has(g, d, {Completed}))
    case WriteConflict => (c.PrepareAgent? || c.Start?) && c.id in g.nodes
                          && exists y :: Has(g, y, {Running, Waiting}) && !MayRunTogether(g.nodes[c.id], g.nodes[y])
    case DispatchUnresolved => exists y :: Has(g, y, {Dispatching}) && (c.Fail? ==> y == c.id)
    case TokenMismatch => (c.Start? && c.dispatchToken.Some? && !HoldsToken(g.nodes, c.id, c.dispatchToken.value))
                          || (c.AbortAgent? && !HoldsToken(g.nodes, c.id, c.token))
    case WaitExists => (c.PrepareWait? || c.ActivateWait?) && c.id in g.nodes && g.nodes[c.id].wait.Some?
    case NoWait => (c.ActivateWait? && c.id in g.nodes && !(g.nodes[c.id].status == Running && g.nodes[c.id].wait.Some?))
                   || (c.AbortWait? && c.id in g.nodes && g.nodes[c.id].wait.None?)
    case WatchMismatch => (c.ActivateWait? || c.AbortWait? || c.Wake?) && c.id in g.nodes && g.nodes[c.id].wait.Some?
                          && g.nodes[c.id].wait.value.watchId != c.watchId
    case ReceiptUnavailable => c.ActivateWait? && c.receipt.None?
    case ReceiptMismatch => c.ActivateWait? && c.id in g.nodes && g.nodes[c.id].wait.Some?
                            && forall t :: !ReceiptAnswers(g.nodes[c.id].wait.value, c.id, c.receipt, t)
    case ReceiptExpired => c.ActivateWait? && c.receipt.Some? && c.receipt.value.deadline.Some? && now > c.receipt.value.deadline.value
    case LockLost => c.ActivateWait? && !c.lockHeld
    case EventReused => c.Wake? && c.id in g.nodes && g.nodes[c.id].lastEvent.Some?
                        && g.nodes[c.id].lastEvent.value.eventId == c.watchId && !RepeatsLast(g, c.id, c.watchId, c.event, c.status)
    case ArtifactsMissing => c.Complete? && c.id in g.nodes && exists a :: a in g.nodes[c.id].expectedArtifacts && a !in c.artifacts
    case NoNodes => c.Verify? && g.nodes == map[]
    case IncompleteNodes => c.Verify? && exists id :: id in g.nodes && g.nodes[id].status != Completed
    case NotVerified => c.Finish? && g.verification.None?
    case InvalidState => false
  }

  // The node is not in a status the command accepts.
  ghost predicate IsMisplaced(g: Goal, c: Command) {
    if c.Add? then c.before.Some? && c.before.value in g.nodes && g.nodes[c.before.value].status != Pending
    else
      ChangesOneNode(c) && c.id in g.nodes
      && (g.nodes[c.id].status !in Accepted(c) || (c.Edit? && g.status != GoalOpen)
          || (c.Start? && g.nodes[c.id].status != Dispatching) || (c.AbortAgent? && g.nodes[c.id].status != Dispatching))
  }

  // What the guards of a start find, as witnesses.
  lemma GuardWitnesses(g: Goal, id: NodeId)
    ensures HasStatus(g.nodes, Dispatching) ==> exists y :: Has(g, y, {Dispatching})
    ensures id in g.nodes && !NodeIsReady(g.nodes[id], g.nodes) ==>
      g.nodes[id].status != Pending || exists d :: d in g.nodes[id].dependsOn && !Has(g, d, {Completed})
    ensures id in g.nodes && ConflictsWithActive(g.nodes[id], g.nodes) ==>
      exists y :: Has(g, y, {Running, Waiting}) && !MayRunTogether(g.nodes[id], g.nodes[y])
  {
    if HasStatus(g.nodes, Dispatching) {
      var y :| y in g.nodes && g.nodes[y].status == Dispatching;
      assert Has(g, y, {Dispatching});
    }
    if id in g.nodes && ConflictsWithActive(g.nodes[id], g.nodes) {
      var y :| y in g.nodes && IsActive(g.nodes[y]) && NodesConflict(g.nodes[id], g.nodes[y]);
      ConflictIff(g.nodes[id], g.nodes[y]);
      assert Has(g, y, {Running, Waiting});
    }
  }

  lemma PrepareRefusal(g: Goal, c: Command, now: Time)
    requires c.PrepareAgent? && Apply(g, c, now).Err?
    ensures IsTrue(Apply(g, c, now).error, g, c, now)
  {
    GuardWitnesses(g, c.id);
  }

  lemma StartRefusal(g: Goal, c: Command, now: Time)
    requires c.Start? && Apply(g, c, now).Err?
    requires c.id in g.nodes ==> ValidNode(c.id, g.nodes[c.id], g.nodes.Keys)
    ensures IsTrue(Apply(g, c, now).error, g, c, now)
  {
    GuardWitnesses(g, c.id);
  }

  lemma AbortRefusal(g: Goal, c: Command, now: Time)
    requires c.AbortAgent? && ValidParts(g) && Apply(g, c, now).Err?
    ensures IsTrue(Apply(g, c, now).error, g, c, now)
  {
    if c.id in g.nodes {
      assert ValidNode(c.id, g.nodes[c.id], g.nodes.Keys);
    }
  }

  lemma ActivateRefusal(g: Goal, c: Command, now: Time)
    requires c.ActivateWait? && Apply(g, c, now).Err?
    ensures IsTrue(Apply(g, c, now).error, g, c, now)
  {
    if c.id in g.nodes && c.receipt.Some? && g.nodes[c.id].wait.Some? {
      var wait := g.nodes[c.id].wait.value;
      forall t ensures ReceiptAnswers(wait, c.id, c.receipt, t) <==>
          ReceiptMatches(c.receipt.value, wait, c.id, wait.watchId) && t <= c.receipt.value.deadline.value
      {
        ReceiptMatchesIff(c.receipt.value, wait, c.id, t);
      }
    }
  }

  lemma PrepareWaitRefusal(g: Goal, c: Command, now: Time)
    requires c.PrepareWait? && OptionNonBlank(g.thread) && Apply(g, c, now).Err?
    ensures IsTrue(Apply(g, c, now).error, g, c, now)
  {
  }

  lemma EndWaitRefusal(g: Goal, c: Command, now: Time)
    requires (c.AbortWait? || c.Wake?) && Apply(g, c, now).Err?
    requires c.id in g.nodes ==> ValidNode(c.id, g.nodes[c.id], g.nodes.Keys)
    ensures IsTrue(Apply(g, c, now).error, g, c, now)
  {
  }

  lemma ResultRefusal(g: Goal, c: Command, now: Time)
    requires (c.Complete? || c.Fail? || c.Retry?) && Apply(g, c, now).Err?
    ensures IsTrue(Apply(g, c, now).error, g, c, now)
  {
    if c.Complete? && c.id in g.nodes {
      NothingMissing(g.nodes[c.id], c.artifacts);
    } else if c.Fail? && c.id in g.nodes && g.nodes[c.id].status == Dispatching {
      assert Has(g, c.id, {Dispatching});
    }
  }

  lemma OtherRefusal(g: Goal, c: Command, now: Time)
    requires (c.Edit? || c.Add? || c.Verify? || c.Pause? || c.Resume? || c.Cancel? || c.Finish?) && Apply(g, c, now).Err?
    ensures IsTrue(Apply(g, c, now).error, g, c, now)
  {
  }

  // Whatever reason a refused command is given is true of the goal.
  lemma RefusalIsTrue(g: Goal, c: Command, now: Time)
    requires ValidParts(g) && Apply(g, c, now).Err?
    ensures IsTrue(Apply(g, c, now).error, g, c, now)
  {
    if c.PrepareAgent? {
      PrepareRefusal(g, c, now);
    } else if c.Start? {
      StartRefusal(g, c, now);
    } else if c.AbortAgent? {
      AbortRefusal(g, c, now);
    } else if c.ActivateWait? {
      ActivateRefusal(g, c, now);
    } else if c.PrepareWait? {
      PrepareWaitRefusal(g, c, now);
    } else if c.AbortWait? || c.Wake? {
      EndWaitRefusal(g, c, now);
    } else if c.Complete? || c.Fail? || c.Retry? {
      ResultRefusal(g, c, now);
    } else {
      OtherRefusal(g, c, now);
    }
  }
}
