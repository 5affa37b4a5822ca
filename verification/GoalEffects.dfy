// What commands leave behind, told by how they undo, complete or record one another.
module GoalEffects {
  import opened Base
  import opened Paths
  import opened GoalModel
  import opened GoalOps
  import opened GoalSchedule
  import opened GoalLog
  import opened GoalRuns

  // The goal is the same but for its log.
  ghost predicate SameButLog(g: Goal, h: Goal) {
    h == g.(events := h.events)
  }

  // One node became another, the log grew, and nothing else changed but, where work was accepted
  // or given up, the verification.
  ghost predicate Became(g: Goal, h: Goal, id: NodeId, node: Node, verified: bool) {
    h == g.(events := h.events, nodes := g.nodes[id := node], verification := if verified then g.verification else None)
  }

  // A dispatch that is aborted leaves no trace but in the log.
  lemma DispatchUndone(g: Goal, id: NodeId, token: string, t1: Time, t2: Time)
    requires PrepareDispatch(g, id, token, t1).Ok? && g.nodes[id].assignment.None?
    ensures var p := PrepareDispatch(g, id, token, t1).value;
            AbortDispatch(p, id, token, t2).Ok? && SameButLog(g, AbortDispatch(p, id, token, t2).value)
  {
    assert g.nodes == g.nodes[id := g.nodes[id]];
    var p := PrepareDispatch(g, id, token, t1).value;
    assert AbortDispatch(p, id, token, t2).value.nodes == g.nodes;
  }

  // A dispatch that is attached records its token, its agent and both times.
  lemma DispatchAttached(g: Goal, id: NodeId, token: string, agent: string, t1: Time, t2: Time)
    requires PrepareDispatch(g, id, token, t1).Ok? && NonBlank(token) && NonBlank(agent)
    ensures var p := PrepareDispatch(g, id, token, t1).value;
            var o := StartNode(p, id, Some(agent), Some(token), t2);
            && o.Ok?
            && Became(g, o.value, id,
                 g.nodes[id].(status := Running, startedAt := Some(t2),
                              assignment := Some(Assignment(Phase.Active, token, t1, Some(agent), Some(t2)))), true)
  {
    var p := PrepareDispatch(g, id, token, t1).value;
    var h := StartNode(p, id, Some(agent), Some(token), t2).value;
    assert h.nodes == g.nodes[id := h.nodes[id]];
  }

  // A node without an agent starts by itself.
  lemma NodeBegins(g: Goal, id: NodeId, now: Time)
    requires StartNode(g, id, None, None, now).Ok?
    ensures Became(g, StartNode(g, id, None, None, now).value, id, g.nodes[id].(status := Running, startedAt := Some(now)), true)
  {
  }

  // A wait that is aborted before it was activated leaves no trace but in the log.
  lemma PreparedWaitUndone(g: Goal, c: Command, t1: Time, t2: Time)
    requires c.PrepareWait? && PrepareExternalWait(g, c, t1).Ok?
    ensures var p := PrepareExternalWait(g, c, t1).value;
            AbortExternalWait(p, c.id, c.watchId, t2).Ok? && SameButLog(g, AbortExternalWait(p, c.id, c.watchId, t2).value)
  {
    var p := PrepareExternalWait(g, c, t1).value;
    assert AbortExternalWait(p, c.id, c.watchId, t2).value.nodes == g.nodes;
  }

  // A prepared wait says what was asked for, on behalf of the goal's own client and thread.
  lemma PreparedWaitSays(g: Goal, c: Command, now: Time)
    requires c.PrepareWait? && PrepareExternalWait(g, c, now).Ok?
    ensures var wait := Wait(c.caption, c.eventNote, g.client, g.thread.value, c.logFile, c.lockFile, c.startupFile, now, c.watchId, Prepared);
            Became(g, PrepareExternalWait(g, c, now).value, c.id, g.nodes[c.id].(wait := Some(wait)), true)
  {
  }

  // Activation changes the phase and the status; aborting an activated wait undoes both, and waking
  // it undoes both and records the event.
  lemma ActivatedWaitEnds(g: Goal, c: Command, receipt: Option<Receipt>, event: WaitEvent, status: Option<string>, t1: Time, t2: Time, t3: Time)
    requires c.PrepareWait? && PrepareExternalWait(g, c, t1).Ok?
    requires ActivateExternalWait(PrepareExternalWait(g, c, t1).value, c.id, c.watchId, receipt, true, t2).Ok?
    requires g.nodes[c.id].lastEvent.Some? ==> g.nodes[c.id].lastEvent.value.eventId != c.watchId
    ensures var a := ActivateExternalWait(PrepareExternalWait(g, c, t1).value, c.id, c.watchId, receipt, true, t2).value;
            var aborted, woken := AbortExternalWait(a, c.id, c.watchId, t3), WakeNode(a, c.id, c.watchId, event, status, t3);
            && a.nodes[c.id].status == Waiting && a.nodes[c.id].wait.Some? && a.nodes[c.id].wait.value.phase == Phase.Active
            && aborted.Ok? && SameButLog(g, aborted.value)
            && woken.Ok?
            && Became(g, woken.value, c.id, g.nodes[c.id].(lastEvent := Some(WatchEvent(c.watchId, event, status, t3))), true)
  {
    var p := PrepareExternalWait(g, c, t1).value;
    var a := ActivateExternalWait(p, c.id, c.watchId, receipt, true, t2).value;
    PreparedWaitSays(g, c, t1);
    ActivationSays(p, c.id, c.watchId, receipt, t2);
    WaitingIsAborted(g, a, c.id, a.nodes[c.id].wait.value, t3);
    WaitingIsWoken(g, a, c.id, a.nodes[c.id].wait.value, event, status, t3);
  }

  // Whatever the wait was, while its node waits for it in an open goal.
  ghost predicate OnlyWaits(g: Goal, a: Goal, id: NodeId, wait: Wait) {
    && id in g.nodes && g.nodes[id].status == Running && g.nodes[id].wait.None? && g.nodes[id].kind == External && g.status == GoalOpen
    && a == g.(events := a.events, nodes := g.nodes[id := g.nodes[id].(status := Waiting, wait := Some(wait))])
  }

  lemma WaitingIsAborted(g: Goal, a: Goal, id: NodeId, wait: Wait, now: Time)
    requires OnlyWaits(g, a, id, wait)
    ensures var aborted := AbortExternalWait(a, id, wait.watchId, now);
            aborted.Ok? && SameButLog(g, aborted.value)
  {
    assert AbortExternalWait(a, id, wait.watchId, now).value.nodes == g.nodes;
  }

  lemma WaitingIsWoken(g: Goal, a: Goal, id: NodeId, wait: Wait, event: WaitEvent, status: Option<string>, now: Time)
    requires OnlyWaits(g, a, id, wait)
    requires g.nodes[id].lastEvent.Some? ==> g.nodes[id].lastEvent.value.eventId != wait.watchId
    ensures var woken := WakeNode(a, id, wait.watchId, event, status, now);
            && woken.Ok?
            && Became(g, woken.value, id, g.nodes[id].(lastEvent := Some(WatchEvent(wait.watchId, event, status, now))), true)
  {
    var w := WakeNode(a, id, wait.watchId, event, status, now).value;
    assert w.nodes == g.nodes[id := w.nodes[id]];
  }

  lemma ActivationSays(g: Goal, id: NodeId, watchId: string, receipt: Option<Receipt>, now: Time)
    requires ActivateExternalWait(g, id, watchId, receipt, true, now).Ok?
    ensures g.nodes[id].wait.Some?
    ensures Became(g, ActivateExternalWait(g, id, watchId, receipt, true, now).value, id,
              g.nodes[id].(status := Waiting, wait := Some(g.nodes[id].wait.value.(phase := Phase.Active))), true)
  {
  }

  // Failure records its reason and time and ends the wait; a retry archives all that the failed
  // attempt recorded and leaves the node as before its first start.
  lemma FailureArchived(g: Goal, id: NodeId, summary: string, t1: Time, t2: Time)
    requires FailNode(g, id, summary, t1).Ok?
    ensures var node := g.nodes[id];
            var failed := FailNode(g, id, summary, t1).value;
            && Became(g, failed, id, node.(status := Failed, result := Some(summary), failedAt := Some(t1), wait := None), false)
            && (g.status == GoalOpen ==>
                 var o := RetryNode(failed, id, t2);
                 && o.Ok?
                 && Became(g, o.value, id,
                      node.(status := Pending, result := None, failedAt := None, wait := None, lastEvent := None, assignment := None, startedAt := None,
                            attempts := node.attempts + [Attempt(Some(summary), Some(t1), node.startedAt, node.assignment, node.lastEvent)]), false))
  {
    var failed := FailNode(g, id, summary, t1).value;
    if g.status == GoalOpen {
      var h := RetryNode(failed, id, t2).value;
      assert h.nodes == g.nodes[id := h.nodes[id]];
    }
  }

  // Completion records the result, the artifacts without repeats, and the time.
  lemma CompletionSays(g: Goal, id: NodeId, summary: string, artifacts: seq<string>, now: Time)
    requires CompleteNode(g, id, summary, artifacts, now).Ok?
    ensures Became(g, CompleteNode(g, id, summary, artifacts, now).value, id,
              g.nodes[id].(status := Completed, result := Some(summary), artifacts := Dedup(artifacts), completedAt := Some(now)), false)
  {
  }

  // An edit can be undone by an edit.
  lemma EditUndone(g: Goal, id: NodeId, title: string, dependsOn: seq<NodeId>, acceptance: seq<string>, t1: Time, t2: Time)
    requires EditNode(g, id, title, dependsOn, acceptance, t1).Ok?
    ensures var node := g.nodes[id];
            var e := EditNode(g, id, title, dependsOn, acceptance, t1).value;
            var back := EditNode(e, id, node.title, node.dependsOn, node.acceptance, t2);
            && Became(g, e, id, node.(title := title, dependsOn := dependsOn, acceptance := acceptance), true)
            && back.Ok? && SameButLog(g, back.value)
  {
    var node := g.nodes[id];
    var e := EditNode(g, id, title, dependsOn, acceptance, t1).value;
    assert EditNode(e, id, node.title, node.dependsOn, node.acceptance, t2).value.nodes == g.nodes;
  }

  // A pause is undone by resuming.
  lemma PauseUndone(g: Goal, t1: Time, t2: Time)
    requires g.status == GoalOpen
    ensures PauseGoal(g, t1).Ok? && PauseGoal(g, t1).value.status == GoalPaused
    ensures ResumeGoal(PauseGoal(g, t1).value, t2).Ok? && SameButLog(g, ResumeGoal(PauseGoal(g, t1).value, t2).value)
  {
  }

  // Verification and the end of a goal record what they are told, and when.
  lemma EndSays(g: Goal, summary: string, checks: seq<string>, ending: string, t1: Time, t2: Time)
    requires VerifyGoal(g, summary, checks, t1).Ok?
    ensures var v := VerifyGoal(g, summary, checks, t1).value;
            && v == g.(events := v.events, verification := Some(Verification(summary, Dedup(checks), t1)))
            && FinishGoal(v, ending, t2).Ok?
            && var f := FinishGoal(v, ending, t2).value;
               f == v.(events := f.events, status := GoalCompleted, result := Some(ending), completedAt := Some(t2))
  {
  }

  // Cancelling ends every node that is not at its end already, together with its wait.
  lemma CancellationSays(g: Goal, now: Time)
    requires CancelGoal(g, now).Ok?
    ensures var h := CancelGoal(g, now).value;
            && h == g.(events := h.events, status := GoalCancelled, nodes := h.nodes) && h.nodes.Keys == g.nodes.Keys
            && forall id :: id in g.nodes ==>
                 h.nodes[id] == if g.nodes[id].status == Completed || g.nodes[id].status == Failed then g.nodes[id]
                                else g.nodes[id].(status := Cancelled, wait := None)
  {
  }

  // A new node is pending and has nothing but what it was given.
  lemma NewNodeSays(c: Command)
    requires c.Add?
    ensures var n := NewNode(c.title, c.kind, c.dependsOn, c.acceptance, c.readOnly, c.writePaths, c.inputs, c.expectedArtifacts);
            && n.title == c.title && n.kind == c.kind && n.status == Pending && n.readOnly == c.readOnly && n.inputs == c.inputs
            && InOrder(c.dependsOn, n.dependsOn) && InOrder(c.acceptance, n.acceptance)
            && InOrder(c.writePaths, n.writePaths) && InOrder(c.expectedArtifacts, n.expectedArtifacts)
            && n.artifacts == [] && n.attempts == [] && n.result.None? && n.wait.None? && n.lastEvent.None? && n.assignment.None?
            && n.startedAt.None? && n.completedAt.None? && n.failedAt.None?
  {
    DedupInOrder(c.dependsOn);
    DedupInOrder(c.acceptance);
    DedupInOrder(c.writePaths);
    DedupInOrder(c.expectedArtifacts);
  }

  // Adding a node drops the verification and touches at most one other node.
  lemma AdditionSays(g: Goal, c: Command, now: Time)
    requires c.Add? && AddNode(g, c, now).Ok?
    ensures var h := AddNode(g, c, now).value;
            && h == g.(events := h.events, nodes := h.nodes, verification := None) && Inserts(g.nodes, h.nodes, c)
  {
    AddInserts(g, c, now);
  }

  // A commit that changes the goal adds one event that says what was done, when and by whom, and
  // dates the goal; owner and origin stay.
  lemma CommitSays(g: Goal, c: Command, source: string, now: Time)
    requires Commit(g, c, source, now).Ok? && Commit(g, c, source, now).value != g && Apply(g, c, now).Ok?
    ensures var raw, h := Apply(g, c, now).value, Commit(g, c, source, now).value;
            && h == raw.(events := h.events, updatedAt := now)
            && h.events == g.events + [Event(|g.events| + 1, now, EntryFor(c), Some(source))]
  {
    CommitParts(g, c, source, now);
  }

  // A created goal is open, empty, unverified, and says whose it is.
  lemma CreationSays(objective: string, thread: Option<string>, client: Client, now: Time)
    ensures var g := Create(objective, thread, client, now);
            && g.objective == objective && g.thread == thread && g.client == client && g.status == GoalOpen && g.nodes == map[]
            && g.verification.None? && g.result.None? && g.completedAt.None? && g.createdAt == now && g.updatedAt == now
            && g.events == [Event(1, now, LogInit, None)]
  {
  }

  // A letter or a digit, by its ASCII code.
  predicate IsWordCode(code: int) {
    48 <= code <= 57 || 65 <= code <= 90 || 97 <= code <= 122
  }

  // A node id has 1 to 128 letters, digits, dots, underscores and hyphens, the first of them a letter
  // or a digit.
  lemma NodeIdIff(id: string)
    ensures ValidNodeId(id) <==>
      && 0 < |id| < 129 && IsWordCode(id[0] as int)
      && forall i :: 0 <= i < |id| ==> IsWordCode(id[i] as int) || id[i] as int == 45 || id[i] as int == 46 || id[i] as int == 95
  {
    forall c: char ensures (IsAlnum(c) <==> IsWordCode(c as int)) && (c in "._-" <==> c as int == 45 || c as int == 46 || c as int == 95) {
      CodeOf(c);
    }
  }

  lemma CodeOf(c: char)
    ensures IsAlnum(c) <==> IsWordCode(c as int)
    ensures c in "._-" <==> c as int == 45 || c as int == 46 || c as int == 95
  {
    assert '0' as int == 48 && '9' as int == 57 && 'A' as int == 65 && 'Z' as int == 90 && 'a' as int == 97 && 'z' as int == 122;
    assert '.' as int == 46 && '_' as int == 95 && '-' as int == 45;
  }

  // What a reader of the file can conclude from one node of an accepted goal.
  lemma ValidNodeTells(id: NodeId, node: Node, ids: set<NodeId>)
    requires ValidNode(id, node, ids)
    ensures node.status == Completed <==> node.completedAt.Some?
    ensures node.status == Failed <==> node.failedAt.Some?
    ensures node.status == Completed || node.status == Failed <==> node.result.Some?
    ensures node.status == Waiting <==> node.wait.Some? && node.wait.value.phase == Phase.Active
    ensures node.wait.Some? && node.wait.value.phase == Prepared ==> node.status == Running
    ensures node.wait.Some? ==> node.kind == External && node.startedAt.Some?
    ensures node.status == Dispatching ==> node.kind == Agent && node.assignment.Some? && node.assignment.value.phase == Prepared
    ensures node.status == Running && node.kind == Agent ==>
      node.assignment.Some? && node.assignment.value.phase == Phase.Active && node.assignment.value.agentId.Some?
    ensures node.status == Pending ==> node.startedAt.None? && node.assignment.None?
    ensures node.assignment.Some? ==> node.kind == Agent && NonBlank(node.assignment.value.token)
    ensures node.status == Completed ==> forall a :: a in node.expectedArtifacts ==> a in node.artifacts
    ensures node.status != Completed ==> node.artifacts == []
    ensures forall d :: d in node.dependsOn ==> d in ids
    ensures forall name :: name in node.inputs ==> node.inputs[name] in node.dependsOn
    ensures node.readOnly ==> node.writePaths == []
    ensures forall a :: a in node.attempts ==> a.result.Some? && a.failedAt.Some? && (a.assignment.Some? ==> a.assignment.value.agentId.Some?)
  {
    if node.status == Completed {
      forall a | a in node.expectedArtifacts ensures a in node.artifacts {
        CompletedHasArtifact(node, a);
      }
    }
  }

  // No text that an accepted node keeps is blank.
  lemma ValidNodeSpeaks(id: NodeId, node: Node, ids: set<NodeId>)
    requires ValidNode(id, node, ids)
    ensures NonBlank(id) && NonBlank(node.title) && OptionNonBlank(node.result)
    ensures forall d :: d in node.dependsOn + node.acceptance + node.expectedArtifacts + node.artifacts ==> NonBlank(d)
    ensures forall name :: name in node.inputs ==> NonBlank(name) && NonBlank(node.inputs[name])
    ensures node.wait.Some? ==>
      var w := node.wait.value;
      forall text :: text in [w.caption, w.eventNote, w.thread, w.logFile, w.lockFile, w.startupFile, w.watchId] ==> NonBlank(text)
    ensures node.wait.Some? ==> '\n' !in node.wait.value.eventNote && '\r' !in node.wait.value.eventNote
    ensures node.lastEvent.Some? ==> NonBlank(node.lastEvent.value.eventId) && OptionNonBlank(node.lastEvent.value.status)
    ensures node.assignment.Some? ==> NonBlank(node.assignment.value.token) && OptionNonBlank(node.assignment.value.agentId)
    ensures forall a :: a in node.attempts ==> OptionNonBlank(a.result)
    ensures forall a :: a in node.attempts && a.assignment.Some? ==> OptionNonBlank(a.assignment.value.agentId)
    ensures forall a :: a in node.attempts && a.lastEvent.Some? ==> NonBlank(a.lastEvent.value.eventId) && OptionNonBlank(a.lastEvent.value.status)
  {
    ValidNodeIdNonBlank(id);
  }

  // Nor is any text of the goal.
  lemma ValidGoalSpeaks(g: Goal)
    requires ValidParts(g)
    ensures NonBlank(g.objective) && OptionNonBlank(g.thread) && OptionNonBlank(g.result)
    ensures g.verification.Some? ==>
      NonBlank(g.verification.value.summary) && forall check :: check in g.verification.value.checks ==> NonBlank(check)
    ensures forall i :: 0 <= i < |g.events| ==> OptionNonBlank(EntryNode(g.events[i].entry))
  {
  }

  // What a reader can conclude about the goal as a whole.
  lemma ValidGoalTells(g: Goal)
    requires ValidParts(g)
    ensures g.status == GoalCompleted <==> g.completedAt.Some?
    ensures g.status == GoalCompleted <==> g.result.Some?
    ensures g.status == GoalCompleted ==> g.verification.Some?
    ensures g.verification.Some? ==>
      g.nodes != map[] && g.verification.value.checks != [] && forall id :: id in g.nodes ==> g.nodes[id].status == Completed
    ensures g.events != [] && g.events[0].entry == LogInit && forall i :: 0 <= i < |g.events| ==> g.events[i].seqNo == i + 1
  {
  }
}
