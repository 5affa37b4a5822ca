// Every goal that can come about: creation followed by any sequence of committed edits.
module GoalRuns {
  import opened Base
  import opened Paths
  import opened GoalModel
  import opened GoalOps
  import opened GoalSchedule
  import opened GoalLog

  // One transaction on the goal file, with generated identifiers drawn afresh.
  ghost predicate Commits(g: Goal, h: Goal) {
    exists c, source, now :: DrawsFreshTokens(g, c) && Commit(g, c, source, now) == Ok(h)
  }

  ghost predicate Created(g: Goal) {
    exists objective, thread, client, now :: g == Create(objective, thread, client, now) && ValidGoal(g)
  }

  ghost predicate IsHistory(history: seq<Goal>) {
    && history != [] && Created(history[0])
    && forall i :: 0 <= i < |history| - 1 ==> Commits(history[i], history[i + 1])
  }

  // What every goal in a history satisfies; only the first conjunct is checked by the program.
  ghost predicate Inv(g: Goal) {
    && ValidGoal(g)
    && DependencyClosed(g.nodes)
    && Exclusive(g.nodes)
    && CancelledTogether(g)
    && ViewOf(g) == Replay(Entries(g.events))
    && WatchesInOrder(g.nodes, Entries(g.events))
    && (g.verification.Some? <==> VerifiedByLog(Entries(g.events)))
  }

  // What a commit that changes the goal consists of.
  lemma CommitParts(g: Goal, c: Command, source: string, now: Time)
    requires Commit(g, c, source, now).Ok?
    ensures var h := Commit(g, c, source, now).value;
            && Apply(g, c, now).Ok?
            && var raw := Apply(g, c, now).value;
            && (raw == g ==> h == g)
            && (raw != g ==>
                 && ValidGoal(h)
                 && h.nodes == raw.nodes && h.status == raw.status && h.verification == raw.verification
                 && h.events == g.events + [Event(|g.events| + 1, now, EntryFor(c), Some(source))]
                 && Entries(h.events) == Entries(g.events) + [EntryFor(c)])
  {
    ApplyLogs(g, c, now);
    var raw := Apply(g, c, now).value;
    if raw != g {
      var h := Commit(g, c, source, now).value;
      var stamped := Stamp(raw, |g.events|, source);
      StampedLog(g, raw, c, source, now);
      assert h == stamped.(updatedAt := now);
      DatedIsValid(stamped, now);
    }
  }

  lemma StampedLog(g: Goal, raw: Goal, c: Command, source: string, now: Time)
    requires raw.events == g.events + [Event(|g.events| + 1, now, EntryFor(c), None)]
    ensures var events := Stamp(raw, |g.events|, source).events;
            && events == g.events + [Event(|g.events| + 1, now, EntryFor(c), Some(source))]
            && Entries(events) == Entries(g.events) + [EntryFor(c)]
  {
  }

  lemma DatedIsValid(g: Goal, now: Time)
    requires ValidGoal(g)
    ensures ValidGoal(g.(updatedAt := now))
  {
    assert ValidParts(g.(updatedAt := now));
  }

  lemma CreatedInv(g: Goal)
    requires Created(g)
    ensures Inv(g)
  {
    var entries := Entries(g.events);
    assert entries == [LogInit];
    assert Replay([LogInit]) == ReplayEntry(Replay([]), LogInit);
    forall w ensures WatchLog(entries, w) == [] {
      FreshHasNoStory(entries, w);
    }
  }

  lemma CommitKeepsSchedule(g: Goal, c: Command, source: string, now: Time)
    requires DependencyClosed(g.nodes) && Exclusive(g.nodes) && CancelledTogether(g)
    requires Commit(g, c, source, now).Ok?
    ensures var h := Commit(g, c, source, now).value;
            ScheduleStep(g.nodes, h.nodes) && DependencyClosed(h.nodes) && Exclusive(h.nodes) && CancelledTogether(h)
  {
    CommitParts(g, c, source, now);
    ApplySchedules(g, c, now);
    ApplyCancelsTogether(g, c, now);
    var h := Commit(g, c, source, now).value;
    ClosureKept(g.nodes, h.nodes);
    ExclusionKept(g.nodes, h.nodes);
  }

  lemma CommitKeepsReplay(g: Goal, c: Command, source: string, now: Time)
    requires ViewOf(g) == Replay(Entries(g.events)) && Commit(g, c, source, now).Ok?
    ensures var h := Commit(g, c, source, now).value;
            ViewOf(h) == Replay(Entries(h.events))
  {
    CommitParts(g, c, source, now);
    var raw := Apply(g, c, now).value;
    if raw != g {
      var h := Commit(g, c, source, now).value;
      var entries := Entries(g.events);
      ApplyReplays(g, c, now);
      assert (entries + [EntryFor(c)])[..|entries|] == entries;
      assert ViewOf(h) == ViewOf(raw);
    }
  }

  lemma CommitKeepsWatches(g: Goal, c: Command, source: string, now: Time)
    requires WatchesInOrder(g.nodes, Entries(g.events)) && ValidGoal(g)
    requires DrawsFreshTokens(g, c) && Commit(g, c, source, now).Ok?
    ensures var h := Commit(g, c, source, now).value;
            WatchesInOrder(h.nodes, Entries(h.events))
  {
    CommitParts(g, c, source, now);
    var raw := Apply(g, c, now).value;
    if raw != g {
      ApplyMovesWaits(g, c, now);
      WatchesKept(g, c, raw, EntryFor(c), Entries(g.events));
    }
  }

  lemma CommitKeepsVerification(g: Goal, c: Command, source: string, now: Time)
    requires g.verification.Some? <==> VerifiedByLog(Entries(g.events))
    requires ValidVerification(g) && Commit(g, c, source, now).Ok?
    ensures var h := Commit(g, c, source, now).value;
            h.verification.Some? <==> VerifiedByLog(Entries(h.events))
  {
    CommitParts(g, c, source, now);
    var raw := Apply(g, c, now).value;
    if raw != g {
      ApplyKeepsVerification(g, c, now);
      VerifiedAppend(Entries(g.events), EntryFor(c));
    }
  }

  lemma CommitInv(g: Goal, c: Command, source: string, now: Time)
    requires Inv(g) && DrawsFreshTokens(g, c) && Commit(g, c, source, now).Ok?
    ensures Inv(Commit(g, c, source, now).value)
  {
    CommitParts(g, c, source, now);
    CommitKeepsSchedule(g, c, source, now);
    CommitKeepsReplay(g, c, source, now);
    CommitKeepsWatches(g, c, source, now);
    CommitKeepsVerification(g, c, source, now);
  }

  // The main invariant: it holds of every goal in every history.
  lemma {:induction false} HistoryInv(history: seq<Goal>, i: nat)
    requires IsHistory(history) && i < |history|
    ensures Inv(history[i])
  {
    if i == 0 {
      CreatedInv(history[0]);
    } else {
      HistoryInv(history, i - 1);
      assert Commits(history[i - 1], history[i - 1 + 1]);
      var c, source, now :| DrawsFreshTokens(history[i - 1], c) && Commit(history[i - 1], c, source, now) == Ok(history[i]);
      CommitInv(history[i - 1], c, source, now);
    }
  }

  // No file lies in the write scopes of two nodes that hold, or are about to hold, them, and
  // no more than one dispatch is ever unresolved.
  lemma ActiveWritersShareNoFile(history: seq<Goal>, n: nat, x: NodeId, y: NodeId, p: Path, q: Path, file: Path)
    requires IsHistory(history) && n < |history|
    requires x in history[n].nodes && y in history[n].nodes && x != y
    requires Claims(history[n].nodes[x]) && Claims(history[n].nodes[y])
    requires p in history[n].nodes[x].writePaths && q in history[n].nodes[y].writePaths
    ensures history[n].nodes[x].status != Dispatching || history[n].nodes[y].status != Dispatching
    ensures !(Below(file, p) && Below(file, q))
  {
    HistoryInv(history, n);
    var nodes := history[n].nodes;
    assert ValidNode(x, nodes[x], nodes.Keys) && ValidNode(y, nodes[y], nodes.Keys);
    assert !NodesConflict(nodes[x], nodes[y]);
    if Below(file, p) && Below(file, q) {
      OverlapIffSharedFile(p, q);
    }
  }

  // ---- What stays the same from one goal in a history to any later one -----------------

  // Later goals keep the log and everything that was accepted.
  ghost predicate Extends(g: Goal, h: Goal) {
    && g.events <= h.events
    && (forall id :: id in g.nodes ==> id in h.nodes && SameScope(g.nodes[id], h.nodes[id]))
    && (forall id :: id in g.nodes && g.nodes[id].status == Completed ==> h.nodes[id] == g.nodes[id])
    && (g.status == GoalCompleted ==> h == g)
  }

  lemma FinishedGoalRefuses(g: Goal, c: Command, source: string, now: Time)
    requires ValidGoal(g) && g.status == GoalCompleted
    ensures Commit(g, c, source, now).Err? || Commit(g, c, source, now) == Ok(g)
  {
    if Commit(g, c, source, now).Ok? {
      CommitParts(g, c, source, now);
      FinishedGoalInert(g, c, now);
    }
  }

  lemma FinishedGoalInert(g: Goal, c: Command, now: Time)
    requires g.status == GoalCompleted && forall id :: id in g.nodes ==> g.nodes[id].status == Completed
    requires Apply(g, c, now).Ok?
    ensures Apply(g, c, now).value == g
  {
  }

  lemma CommitExtends(g: Goal, c: Command, source: string, now: Time)
    requires Inv(g) && Commit(g, c, source, now).Ok?
    ensures Extends(g, Commit(g, c, source, now).value)
  {
    CommitParts(g, c, source, now);
    CommitKeepsSchedule(g, c, source, now);
    if g.status == GoalCompleted {
      FinishedGoalRefuses(g, c, source, now);
    }
  }

  // One transaction keeps the invariant and everything accepted so far.
  lemma CommitsKeeps(g: Goal, h: Goal)
    requires Inv(g) && Commits(g, h)
    ensures Inv(h) && Extends(g, h)
  {
    var c, source, now :| DrawsFreshTokens(g, c) && Commit(g, c, source, now) == Ok(h);
    CommitInv(g, c, source, now);
    CommitExtends(g, c, source, now);
  }

  lemma ExtendsTransitive(a: Goal, b: Goal, c: Goal)
    requires Extends(a, b) && Extends(b, c)
    ensures Extends(a, c)
  {
    forall id | id in a.nodes ensures id in c.nodes && SameScope(a.nodes[id], c.nodes[id]) {
      assert SameScope(a.nodes[id], b.nodes[id]) && SameScope(b.nodes[id], c.nodes[id]);
    }
  }

  lemma NextExtends(history: seq<Goal>, i: nat)
    requires IsHistory(history) && i + 1 < |history|
    ensures Extends(history[i], history[i + 1])
  {
    HistoryInv(history, i);
    assert Commits(history[i], history[i + 1]);
    CommitsKeeps(history[i], history[i + 1]);
  }

  ghost predicate Grows(history: seq<Goal>) {
    forall i :: 0 <= i < |history| - 1 ==> Extends(history[i], history[i + 1])
  }

  lemma {:induction false} GrowingExtends(history: seq<Goal>, i: nat, j: nat)
    requires Grows(history) && i <= j < |history|
    ensures Extends(history[i], history[j])
  {
    if i < j {
      GrowingExtends(history, i, j - 1);
      assert Extends(history[j - 1], history[j - 1 + 1]);
      ExtendsTransitive(history[i], history[j - 1], history[j]);
    } else {
      ExtendsItself(history[i]);
    }
  }

  lemma ExtendsItself(g: Goal)
    ensures Extends(g, g)
  {
  }

  lemma HistoryExtends(history: seq<Goal>, i: nat, j: nat)
    requires IsHistory(history) && i <= j < |history|
    ensures Extends(history[i], history[j])
  {
    forall k | 0 <= k < |history| - 1 ensures Extends(history[k], history[k + 1]) {
      NextExtends(history, k);
    }
    GrowingExtends(history, i, j);
  }

  // A finished goal was verified on a non-empty graph with every expected artifact supplied.
  lemma FinishedGoalIsAccepted(history: seq<Goal>, i: nat)
    requires IsHistory(history) && i < |history| && history[i].status == GoalCompleted
    ensures history[i].nodes != map[] && VerifiedByLog(Entries(history[i].events))
    ensures forall id, a :: id in history[i].nodes && a in history[i].nodes[id].expectedArtifacts ==>
      a in history[i].nodes[id].artifacts
  {
    var g := history[i];
    HistoryInv(history, i);
    forall id, a | id in g.nodes && a in g.nodes[id].expectedArtifacts ensures a in g.nodes[id].artifacts {
      assert ValidNode(id, g.nodes[id], g.nodes.Keys);
      CompletedHasArtifact(g.nodes[id], a);
    }
  }

  lemma CompletedHasArtifact(node: Node, a: string)
    requires MissingArtifacts(node, node.artifacts) == {} && a in node.expectedArtifacts
    ensures a in node.artifacts
  {
    assert a !in MissingArtifacts(node, node.artifacts);
  }

  // ---- One external wait is woken at most once ------------------------------------------

  lemma {:induction false} StoryPosition(entries: seq<Entry>, i: nat, w: string)
    requires i < |entries| && WatchIdOf(entries[i]) == Some(w)
    ensures var at := |WatchLog(entries[..i], w)|;
            at < |WatchLog(entries, w)| && WatchLog(entries, w)[at] == entries[i]
  {
    var init := entries[..|entries| - 1];
    if i < |init| {
      StoryPosition(init, i, w);
      assert init[..i] == entries[..i];
    } else {
      assert entries[..i] == init;
    }
  }

  // Earlier entries of a story stand earlier in it.
  lemma StoryOrder(entries: seq<Entry>, w: string, i: nat, j: nat)
    requires i < j <= |entries| && WatchIdOf(entries[i]) == Some(w)
    ensures |WatchLog(entries[..i], w)| < |WatchLog(entries[..j], w)|
  {
    assert entries[..j][..i] == entries[..i];
    StoryPosition(entries[..j], i, w);
  }

  lemma OneWakePerStory(entries: seq<Entry>, w: string, i: nat, j: nat)
    requires WatchStory(WatchLog(entries, w)) && i <= j < |entries|
    requires entries[i].LogWake? && entries[i].watchId == w && entries[j].LogWake? && entries[j].watchId == w
    ensures i == j
  {
    if i < j {
      StoryOrder(entries, w, i, j);
      StoryPosition(entries, i, w);
      StoryPosition(entries, j, w);
    }
  }

  lemma WakesAtMostOnce(history: seq<Goal>, n: nat, i: nat, j: nat)
    requires IsHistory(history) && n < |history|
    requires i < |history[n].events| && j < |history[n].events|
    requires history[n].events[i].entry.LogWake? && history[n].events[j].entry.LogWake?
    requires history[n].events[i].entry.watchId == history[n].events[j].entry.watchId
    ensures i == j
  {
    HistoryInv(history, n);
    var entries := Entries(history[n].events);
    var w := entries[i].watchId;
    assert WatchStory(WatchLog(entries, w));
    if i <= j {
      OneWakePerStory(entries, w, i, j);
    } else {
      OneWakePerStory(entries, w, j, i);
    }
  }

  // A woken watch id is no node's current wait.
  lemma WokenIsNotCurrent(nodes: map<NodeId, Node>, entries: seq<Entry>, id: NodeId, k: nat)
    requires WatchesInOrder(nodes, entries) && id in nodes
    requires k < |entries| && entries[k].LogWake?
    ensures nodes[id].wait.Some? ==> nodes[id].wait.value.watchId != entries[k].watchId
  {
    var w := entries[k].watchId;
    StoryPosition(entries, k, w);
    if nodes[id].wait.Some? && nodes[id].wait.value.watchId == w {
      assert OnTrack(id, nodes[id].wait.value, entries);
    }
  }

  // The event is an exact repeat of the last one the node accepted.
  predicate RepeatsLast(g: Goal, id: NodeId, w: string, event: WaitEvent, status: Option<string>) {
    id in g.nodes && g.nodes[id].lastEvent.Some?
    && var last := g.nodes[id].lastEvent.value;
       last.eventId == w && last.event == event && last.status == status
  }

  lemma WakeOfOtherWait(g: Goal, id: NodeId, w: string, event: WaitEvent, status: Option<string>, now: Time)
    requires id in g.nodes && g.nodes[id].wait.Some? ==> g.nodes[id].wait.value.watchId != w
    ensures WakeNode(g, id, w, event, status, now) == Ok(g) <==> RepeatsLast(g, id, w, event, status)
    ensures WakeNode(g, id, w, event, status, now).Ok? ==> WakeNode(g, id, w, event, status, now).value == g
  {
  }

  // Once a watch id has woken its node, presenting it again changes nothing: an exact
  // repeat of the node's last event is accepted silently and everything else is refused.
  lemma StaleWakeIsInert(g: Goal, id: NodeId, w: string, event: WaitEvent, status: Option<string>,
                         source: string, now: Time, k: nat)
    requires Inv(g) && k < |g.events| && g.events[k].entry.LogWake? && g.events[k].entry.watchId == w
    ensures var outcome := Commit(g, Wake(id, w, event, status), source, now);
            outcome == Ok(g) <==> RepeatsLast(g, id, w, event, status)
    ensures var outcome := Commit(g, Wake(id, w, event, status), source, now);
            outcome.Err? <==> !RepeatsLast(g, id, w, event, status)
  {
    if id in g.nodes {
      WokenIsNotCurrent(g.nodes, Entries(g.events), id, k);
    }
    WakeOfOtherWait(g, id, w, event, status, now);
    UnchangedCommit(g, Wake(id, w, event, status), source, now);
  }

  lemma UnchangedCommit(g: Goal, c: Command, source: string, now: Time)
    requires c.Wake?
    requires var o := WakeNode(g, c.id, c.watchId, c.event, c.status, now); o.Ok? ==> o.value == g
    ensures Commit(g, c, source, now) == WakeNode(g, c.id, c.watchId, c.event, c.status, now)
  {
    assert Apply(g, c, now) == WakeNode(g, c.id, c.watchId, c.event, c.status, now);
  }

  // A node waits on w only after an `activate_wait` for w was committed.
  lemma WaitingWasActivated(history: seq<Goal>, n: nat, id: NodeId)
    requires IsHistory(history) && n < |history| && id in history[n].nodes
    requires history[n].nodes[id].status == Waiting
    ensures history[n].nodes[id].wait.Some?
    ensures LogActivateWait(id, history[n].nodes[id].wait.value.watchId) in Entries(history[n].events)
  {
    HistoryInv(history, n);
    var g := history[n];
    assert ValidNode(id, g.nodes[id], g.nodes.Keys);
    var w := g.nodes[id].wait.value;
    assert OnTrack(id, w, Entries(g.events));
    StoryIsLogged(Entries(g.events), w.watchId, 1);
  }

  lemma {:induction false} StoryIsLogged(entries: seq<Entry>, w: string, k: nat)
    requires k < |WatchLog(entries, w)|
    ensures WatchLog(entries, w)[k] in entries
  {
    var init := entries[..|entries| - 1];
    if k < |WatchLog(init, w)| {
      StoryIsLogged(init, w, k);
    }
  }
}
