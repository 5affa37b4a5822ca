// The event log as a history: what folding it reconstructs, what it says about each
// external wait, and how it tells whether verification is current.
module GoalLog {
  import opened Base
  import opened GoalModel
  import opened GoalOps
  import opened GoalSchedule

  function Entries(events: seq<Event>): (r: seq<Entry>)
    ensures |r| == |events| && forall i :: 0 <= i < |r| ==> r[i] == events[i].entry
  {
    seq(|events|, i requires 0 <= i < |events| => events[i].entry)
  }

  // ---- Folding the log -----------------------------------------------------------

  // What the log alone can tell about a node and about the goal.
  datatype NodeView = NodeView(kind: NodeKind, status: NodeStatus, watchId: Option<string>, token: Option<string>,
                               lastEvent: Option<(string, WaitEvent, Option<string>)>,
                               artifacts: seq<string>, attempts: nat)

  datatype View = View(status: GoalStatus, verified: bool, nodes: map<NodeId, NodeView>)

  function ViewOfNode(n: Node): NodeView {
    NodeView(n.kind, n.status,
             if n.wait.Some? then Some(n.wait.value.watchId) else None,
             if n.assignment.Some? then Some(n.assignment.value.token) else None,
             if n.lastEvent.Some? then Some((n.lastEvent.value.eventId, n.lastEvent.value.event, n.lastEvent.value.status)) else None,
             n.artifacts, |n.attempts|)
  }

  function ViewOf(g: Goal): View {
    View(g.status, g.verification.Some?, map id | id in g.nodes :: ViewOfNode(g.nodes[id]))
  }

  function CancelledView(n: NodeView): NodeView {
    if n.status in {Completed, Failed} then n else n.(status := Cancelled, watchId := None)
  }

  function ReplayNode(n: NodeView, e: Entry): NodeView {
    match e
    case LogPrepareAgent(_, token) => n.(status := Dispatching, token := Some(token))
    case LogStart(_) => n.(status := Running)
    case LogAbortAgent(_, _) => n.(status := Pending, token := None)
    case LogPrepareWait(_, watchId) => n.(watchId := Some(watchId))
    case LogActivateWait(_, _) => n.(status := Waiting)
    case LogAbortWait(_, _) => n.(status := Running, watchId := None)
    case LogWake(_, watchId, event, status) => n.(status := Running, watchId := None, lastEvent := Some((watchId, event, status)))
    case LogComplete(_, artifacts) => n.(status := Completed, artifacts := artifacts)
    case LogFail(_) => n.(status := Failed, watchId := None)
    case LogRetry(_) => n.(status := Pending, watchId := None, token := None, lastEvent := None, attempts := n.attempts + 1)
    case _ => n
  }

  function ReplayEntry(v: View, e: Entry): View {
    match e
    case LogInit => View(GoalOpen, false, map[])
    case LogAdd(id, _, kind, _, _) => View(v.status, false, v.nodes[id := NodeView(kind, Pending, None, None, None, [], 0)])
    case LogVerify(_) => v.(verified := true)
    case LogPause => v.(status := GoalPaused)
    case LogResume => v.(status := GoalOpen)
    case LogFinish => v.(status := GoalCompleted)
    case LogCancel => View(GoalCancelled, v.verified, map id | id in v.nodes :: CancelledView(v.nodes[id]))
    case _ =>
      if e.id !in v.nodes then v
      else
        View(v.status, v.verified && !(e.LogComplete? || e.LogFail? || e.LogRetry?),
             v.nodes[e.id := ReplayNode(v.nodes[e.id], e)])
  }

  function Replay(entries: seq<Entry>): View {
    if entries == [] then View(GoalOpen, false, map[])
    else ReplayEntry(Replay(entries[..|entries| - 1]), entries[|entries| - 1])
  }

  lemma ViewOfUpdate(g: Goal, h: Goal, id: NodeId)
    requires id in g.nodes && id in h.nodes && h.nodes == g.nodes[id := h.nodes[id]]
    ensures ViewOf(h).nodes == ViewOf(g).nodes[id := ViewOfNode(h.nodes[id])]
  {
  }

  // A command on one node moves that node's view as its log entry says.
  ghost predicate NodeReplays(g: Goal, h: Goal, e: Entry) {
    && EntryNode(e).Some? && !e.LogAdd? && e.id in g.nodes && e.id in h.nodes
    && h.status == g.status
    && h.verification.Some? == (g.verification.Some? && !(e.LogComplete? || e.LogFail? || e.LogRetry?))
    && ViewOfNode(h.nodes[e.id]) == ReplayNode(ViewOfNode(g.nodes[e.id]), e)
  }

  lemma DispatchReplays(g: Goal, c: Command, now: Time)
    requires c.PrepareAgent? || c.Start? || c.AbortAgent? || c.Edit?
    requires Apply(g, c, now).Ok?
    ensures NodeReplays(g, Apply(g, c, now).value, EntryFor(c))
  {
  }

  lemma WaitReplays(g: Goal, c: Command, now: Time)
    requires c.PrepareWait? || c.ActivateWait? || c.AbortWait? || c.Wake?
    requires Apply(g, c, now).Ok? && Apply(g, c, now).value != g
    ensures NodeReplays(g, Apply(g, c, now).value, EntryFor(c))
  {
  }

  lemma ResultReplays(g: Goal, c: Command, now: Time)
    requires c.Complete? || c.Fail? || c.Retry?
    requires Apply(g, c, now).Ok?
    ensures NodeReplays(g, Apply(g, c, now).value, EntryFor(c))
  {
  }

  lemma NodeViewReplays(g: Goal, h: Goal, e: Entry)
    requires NodeReplays(g, h, e) && h.nodes == g.nodes[e.id := h.nodes[e.id]]
    ensures ViewOf(h) == ReplayEntry(ViewOf(g), e)
  {
    ViewOfUpdate(g, h, e.id);
  }

  lemma StatusCommandReplays(g: Goal, c: Command, now: Time)
    requires c.Verify? || c.Pause? || c.Resume? || c.Finish?
    requires Apply(g, c, now).Ok?
    ensures ViewOf(Apply(g, c, now).value) == ReplayEntry(ViewOf(g), EntryFor(c))
  {
    assert Apply(g, c, now).value.nodes == g.nodes;
  }

  lemma CancelReplays(g: Goal, now: Time)
    requires CancelGoal(g, now).Ok?
    ensures ViewOf(CancelGoal(g, now).value) == ReplayEntry(ViewOf(g), LogCancel)
  {
    assert ViewOf(CancelGoal(g, now).value).nodes == ReplayEntry(ViewOf(g), LogCancel).nodes;
  }

  // The log keeps pace with every operation.
  lemma ApplyReplays(g: Goal, c: Command, now: Time)
    requires Apply(g, c, now).Ok? && Apply(g, c, now).value != g
    ensures ViewOf(Apply(g, c, now).value) == ReplayEntry(ViewOf(g), EntryFor(c))
  {
    if c.Add? {
      AddInserts(g, c, now);
      AddReplays(g, AddNode(g, c, now).value, c);
    } else if ChangesOneNode(c) {
      NodeCommandMoves(g, c, now);
      NodeCommandReplays(g, c, now);
      NodeViewReplays(g, Apply(g, c, now).value, EntryFor(c));
    } else if c.Cancel? {
      CancelReplays(g, now);
    } else {
      StatusCommandReplays(g, c, now);
    }
  }

  lemma NodeCommandReplays(g: Goal, c: Command, now: Time)
    requires ChangesOneNode(c) && Apply(g, c, now).Ok? && Apply(g, c, now).value != g
    ensures NodeReplays(g, Apply(g, c, now).value, EntryFor(c))
  {
    if c.PrepareWait? || c.ActivateWait? || c.AbortWait? || c.Wake? {
      WaitReplays(g, c, now);
    } else if c.Complete? || c.Fail? || c.Retry? {
      ResultReplays(g, c, now);
    } else {
      DispatchReplays(g, c, now);
    }
  }

  lemma AddReplays(g: Goal, h: Goal, c: Command)
    requires c.Add? && Inserts(g.nodes, h.nodes, c) && h.status == g.status && h.verification.None?
    ensures ViewOf(h) == ReplayEntry(ViewOf(g), EntryFor(c))
  {
    assert ViewOf(h).nodes == ReplayEntry(ViewOf(g), EntryFor(c)).nodes;
  }

  // ---- The story of one external wait ----------------------------------------------

  function WatchIdOf(e: Entry): Option<string> {
    if e.LogPrepareWait? || e.LogActivateWait? || e.LogAbortWait? || e.LogWake? then Some(e.watchId) else None
  }

  // The entries that concern one watch id.
  function WatchLog(entries: seq<Entry>, w: string): seq<Entry> {
    if entries == [] then []
    else
      var last := entries[|entries| - 1];
      WatchLog(entries[..|entries| - 1], w) + (if WatchIdOf(last) == Some(w) then [last] else [])
  }

  // prepare; or prepare, abort; or prepare, activate; or prepare, activate and one of wake and abort.
  predicate WatchStory(story: seq<Entry>) {
    && |story| <= 3
    && (|story| >= 1 ==> story[0].LogPrepareWait?)
    && (|story| >= 2 ==> (story[1].LogActivateWait? || story[1].LogAbortWait?) && story[1].id == story[0].id)
    && (|story| == 3 ==> story[1].LogActivateWait? && (story[2].LogWake? || story[2].LogAbortWait?) && story[2].id == story[0].id)
  }

  // A wait held by a node is at the point of its story its phase says.
  ghost predicate OnTrack(id: NodeId, w: Wait, entries: seq<Entry>) {
    WatchLog(entries, w.watchId) ==
      if w.phase == Prepared then [LogPrepareWait(id, w.watchId)]
      else [LogPrepareWait(id, w.watchId), LogActivateWait(id, w.watchId)]
  }

  ghost predicate WatchesInOrder(nodes: map<NodeId, Node>, entries: seq<Entry>) {
    && (forall w :: WatchStory(WatchLog(entries, w)))
    && (forall id :: id in nodes && nodes[id].wait.Some? ==> OnTrack(id, nodes[id].wait.value, entries))
  }

  function EntryToken(e: Entry): Option<string> {
    if e.LogPrepareAgent? || e.LogAbortAgent? then Some(e.token) else WatchIdOf(e)
  }

  // A generated identifier that no entry has carried before.
  ghost predicate FreshToken(entries: seq<Entry>, token: string) {
    NonBlank(token) && forall e :: e in entries ==> EntryToken(e) != Some(token)
  }

  ghost predicate DrawsFreshTokens(g: Goal, c: Command) {
    && (c.PrepareAgent? ==> FreshToken(Entries(g.events), c.token))
    && (c.PrepareWait? ==> FreshToken(Entries(g.events), c.watchId))
  }

  lemma {:induction false} FreshHasNoStory(entries: seq<Entry>, w: string)
    requires forall e :: e in entries ==> WatchIdOf(e) != Some(w)
    ensures WatchLog(entries, w) == []
  {
    if entries != [] {
      FreshHasNoStory(entries[..|entries| - 1], w);
    }
  }

  lemma WatchLogAppend(entries: seq<Entry>, e: Entry, w: string)
    ensures WatchLog(entries + [e], w) == WatchLog(entries, w) + (if WatchIdOf(e) == Some(w) then [e] else [])
  {
    assert (entries + [e])[..|entries|] == entries;
  }

  // The wait a command may create, move or end, before and after.
  ghost predicate WaitMoves(g: Goal, c: Command, h: Goal, e: Entry) {
    && (forall id :: id in h.nodes && h.nodes[id].wait.Some? ==>
         id in g.nodes && (h.nodes[id].wait == g.nodes[id].wait || (EntryNode(e) == Some(id) && WatchIdOf(e).Some?)))
    && (WatchIdOf(e).Some? ==>
         && e.id in g.nodes && e.id in h.nodes
         && var before, after := g.nodes[e.id].wait, h.nodes[e.id].wait;
         match e
         case LogPrepareWait(_, w) => before.None? && after.Some? && after.value.watchId == w && after.value.phase == Prepared
                                      && c.PrepareWait? && c.watchId == w
         case LogActivateWait(_, w) => before.Some? && before.value.watchId == w && before.value.phase == Prepared
                                       && after == Some(before.value.(phase := Active))
         case LogAbortWait(_, w) => before.Some? && before.value.watchId == w && after.None?
         case LogWake(_, w, _, _) => before.Some? && before.value.watchId == w && g.nodes[e.id].status == Waiting && after.None?
         case _ => true)
  }

  lemma WaitCommandMoves(g: Goal, c: Command, now: Time)
    requires c.PrepareWait? || c.ActivateWait? || c.AbortWait? || c.Wake?
    requires Apply(g, c, now).Ok? && Apply(g, c, now).value != g
    ensures WaitMoves(g, c, Apply(g, c, now).value, EntryFor(c))
  {
  }

  lemma OtherCommandMoves(g: Goal, c: Command, now: Time)
    requires ChangesOneNode(c) && WatchIdOf(EntryFor(c)).None?
    requires Apply(g, c, now).Ok? && Apply(g, c, now).value != g
    ensures WaitMoves(g, c, Apply(g, c, now).value, EntryFor(c))
  {
    NodeCommandMoves(g, c, now);
    OtherCommandWait(g, c, now);
  }

  // Only the wait operations create a wait.
  lemma OtherCommandWait(g: Goal, c: Command, now: Time)
    requires ChangesOneNode(c) && WatchIdOf(EntryFor(c)).None?
    requires Apply(g, c, now).Ok? && c.id in g.nodes && c.id in Apply(g, c, now).value.nodes
    ensures var wait := Apply(g, c, now).value.nodes[c.id].wait;
            wait.None? || wait == g.nodes[c.id].wait
  {
  }

  // An operation on the goal as a whole creates no wait.
  lemma GoalCommandMoves(g: Goal, c: Command, now: Time)
    requires !ChangesOneNode(c) && Apply(g, c, now).Ok?
    ensures WaitMoves(g, c, Apply(g, c, now).value, EntryFor(c))
  {
    if c.Add? {
      AddInserts(g, c, now);
      InsertMovesNoWait(g, Apply(g, c, now).value, c);
    } else if c.Cancel? {
      CancelMovesNoWait(g, now);
    } else {
      assert Apply(g, c, now).value.nodes == g.nodes;
    }
  }

  lemma InsertMovesNoWait(g: Goal, h: Goal, c: Command)
    requires c.Add? && Inserts(g.nodes, h.nodes, c)
    ensures WaitMoves(g, c, h, EntryFor(c))
  {
  }

  lemma CancelMovesNoWait(g: Goal, now: Time)
    requires CancelGoal(g, now).Ok?
    ensures WaitMoves(g, Cancel, CancelGoal(g, now).value, LogCancel)
  {
  }

  lemma ApplyMovesWaits(g: Goal, c: Command, now: Time)
    requires Apply(g, c, now).Ok? && Apply(g, c, now).value != g
    ensures WaitMoves(g, c, Apply(g, c, now).value, EntryFor(c))
  {
    if c.PrepareWait? || c.ActivateWait? || c.AbortWait? || c.Wake? {
      WaitCommandMoves(g, c, now);
    } else if ChangesOneNode(c) {
      OtherCommandMoves(g, c, now);
    } else {
      GoalCommandMoves(g, c, now);
    }
  }

  // The entry continues the story told so far.
  ghost predicate NextInStory(story: seq<Entry>, e: Entry)
    requires WatchIdOf(e).Some?
  {
    var prepared := [LogPrepareWait(e.id, e.watchId)];
    var activated := prepared + [LogActivateWait(e.id, e.watchId)];
    && (e.LogPrepareWait? ==> story == [])
    && (e.LogActivateWait? ==> story == prepared)
    && (e.LogAbortWait? ==> story == prepared || story == activated)
    && (e.LogWake? ==> story == activated)
  }

  lemma StoryGrows(entries: seq<Entry>, e: Entry, w: string)
    requires WatchStory(WatchLog(entries, w))
    requires WatchIdOf(e) == Some(w) ==> NextInStory(WatchLog(entries, w), e)
    ensures WatchStory(WatchLog(entries + [e], w))
  {
    WatchLogAppend(entries, e, w);
  }

  // A wait operation is the next event in the story of its watch id.
  lemma StoryContinues(g: Goal, c: Command, h: Goal, e: Entry, entries: seq<Entry>)
    requires WatchesInOrder(g.nodes, entries) && WaitMoves(g, c, h, e) && WatchIdOf(e).Some?
    requires e.id in g.nodes && ValidWait(g.nodes[e.id])
    requires e.LogPrepareWait? ==> WatchLog(entries, e.watchId) == []
    ensures NextInStory(WatchLog(entries, e.watchId), e)
  {
    if !e.LogPrepareWait? {
      assert OnTrack(e.id, g.nodes[e.id].wait.value, entries);
    }
  }

  lemma WatchesKept(g: Goal, c: Command, h: Goal, e: Entry, entries: seq<Entry>)
    requires WatchesInOrder(g.nodes, entries) && WaitMoves(g, c, h, e)
    requires forall id :: id in g.nodes ==> ValidWait(g.nodes[id])
    requires c.PrepareWait? ==> FreshToken(entries, c.watchId)
    ensures WatchesInOrder(h.nodes, entries + [e])
  {
    if e.LogPrepareWait? {
      FreshHasNoStory(entries, e.watchId);
    }
    forall w ensures WatchStory(WatchLog(entries + [e], w)) {
      if WatchIdOf(e) == Some(w) {
        StoryContinues(g, c, h, e, entries);
      }
      StoryGrows(entries, e, w);
    }
    forall id | id in h.nodes && h.nodes[id].wait.Some?
      ensures OnTrack(id, h.nodes[id].wait.value, entries + [e])
    {
      var w := h.nodes[id].wait.value;
      WatchLogAppend(entries, e, w.watchId);
      if EntryNode(e) == Some(id) && WatchIdOf(e).Some? {
        assert w.watchId == e.watchId;
        assert e.LogActivateWait? ==> OnTrack(id, g.nodes[id].wait.value, entries);
      } else {
        assert OnTrack(id, w, entries);
      }
    }
  }

  // ---- Is verification current? ------------------------------------------------------

  predicate Quiet(e: Entry) {
    e.LogPause? || e.LogResume? || e.LogCancel? || e.LogFinish?
  }

  // Nothing but pauses, resumptions and the end of the goal since the last verification.
  ghost predicate VerifiedByLog(entries: seq<Entry>) {
    exists k :: 0 <= k < |entries| && entries[k].LogVerify? && forall j :: k < j < |entries| ==> Quiet(entries[j])
  }

  lemma VerifiedAppend(entries: seq<Entry>, e: Entry)
    ensures VerifiedByLog(entries + [e]) <==> e.LogVerify? || (Quiet(e) && VerifiedByLog(entries))
  {
    var longer := entries + [e];
    if e.LogVerify? {
      assert longer[|entries|].LogVerify?;
    }
    if VerifiedByLog(longer) {
      var k :| 0 <= k < |longer| && longer[k].LogVerify? && forall j :: k < j < |longer| ==> Quiet(longer[j]);
      if k < |entries| {
        assert Quiet(longer[|entries|]);
        assert entries[k].LogVerify? && forall j :: k < j < |entries| ==> Quiet(entries[j]) by {
          forall j | k < j < |entries| ensures Quiet(entries[j]) {
            assert longer[j] == entries[j];
          }
        }
      }
    }
    if VerifiedByLog(entries) && Quiet(e) {
      var k :| 0 <= k < |entries| && entries[k].LogVerify? && forall j :: k < j < |entries| ==> Quiet(entries[j]);
      assert longer[k].LogVerify?;
    }
  }

  ghost predicate KeepsVerification(g: Goal, h: Goal, e: Entry) {
    h.verification.Some? <==> e.LogVerify? || (Quiet(e) && g.verification.Some?)
  }

  // A verified goal has no node left for these.
  lemma DispatchVerification(g: Goal, c: Command, now: Time)
    requires c.Edit? || c.PrepareAgent? || c.Start? || c.AbortAgent?
    requires Apply(g, c, now).Ok? && ValidVerification(g)
    ensures KeepsVerification(g, Apply(g, c, now).value, EntryFor(c))
  {
  }

  lemma WaitVerification(g: Goal, c: Command, now: Time)
    requires c.PrepareWait? || c.ActivateWait? || c.AbortWait? || c.Wake?
    requires Apply(g, c, now).Ok? && Apply(g, c, now).value != g && ValidVerification(g)
    ensures KeepsVerification(g, Apply(g, c, now).value, EntryFor(c))
  {
  }

  lemma ApplyKeepsVerification(g: Goal, c: Command, now: Time)
    requires Apply(g, c, now).Ok? && Apply(g, c, now).value != g && ValidVerification(g)
    ensures KeepsVerification(g, Apply(g, c, now).value, EntryFor(c))
  {
    if c.Edit? || c.PrepareAgent? || c.Start? || c.AbortAgent? {
      DispatchVerification(g, c, now);
    } else if c.PrepareWait? || c.ActivateWait? || c.AbortWait? || c.Wake? {
      WaitVerification(g, c, now);
    }
  }
}
