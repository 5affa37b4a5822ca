// The dispatch protocol over whole histories: every token is handed out once and resolved once,
// by attaching an agent, by aborting the dispatch, or by cancelling the goal.
module GoalTokens {
  import opened Base
  import opened GoalModel
  import opened GoalOps
  import opened GoalSchedule
  import opened GoalLog
  import opened GoalRuns

  // The log shows that the token was handed out.
  ghost predicate Drawn(g: Goal, token: string) {
    exists id :: LogPrepareAgent(id, token) in Entries(g.events)
  }

  // Handed out, and no dispatch waits for it.
  ghost predicate Spent(g: Goal, token: string) {
    Drawn(g, token) && forall id :: !HoldsToken(g.nodes, id, token)
  }

  // The step in which a dispatch under the token comes to its end.
  ghost predicate Resolves(g: Goal, h: Goal, id: NodeId, token: string) {
    HoldsToken(g.nodes, id, token) && !HoldsToken(h.nodes, id, token)
  }

  // A token that folding the log gives for a node stands in the log.
  lemma {:induction false} ReplayedTokenIsLogged(entries: seq<Entry>, id: NodeId)
    requires id in Replay(entries).nodes && Replay(entries).nodes[id].token.Some?
    ensures LogPrepareAgent(id, Replay(entries).nodes[id].token.value) in entries
  {
    var init, last := entries[..|entries| - 1], entries[|entries| - 1];
    assert entries == init + [last];
    if last != LogPrepareAgent(id, Replay(entries).nodes[id].token.value) {
      EntryKeepsToken(Replay(init), last, id);
      ReplayedTokenIsLogged(init, id);
    }
  }

  // Only a preparation gives a node a token.
  lemma EntryKeepsToken(v: View, e: Entry, id: NodeId)
    requires id in ReplayEntry(v, e).nodes && ReplayEntry(v, e).nodes[id].token.Some?
    requires e != LogPrepareAgent(id, ReplayEntry(v, e).nodes[id].token.value)
    ensures id in v.nodes && v.nodes[id].token == ReplayEntry(v, e).nodes[id].token
  {
  }

  lemma HeldTokenIsDrawn(g: Goal, id: NodeId, token: string)
    requires ViewOf(g) == Replay(Entries(g.events)) && HoldsToken(g.nodes, id, token)
    ensures Drawn(g, token)
  {
    assert ViewOf(g).nodes[id].token == Some(token);
    ReplayedTokenIsLogged(Entries(g.events), id);
  }

  // Where a dispatch after an operation comes from.
  ghost predicate TokenFrom(g: map<NodeId, Node>, c: Command, id: NodeId, token: string) {
    HoldsToken(g, id, token) || c == PrepareAgent(id, token)
  }

  lemma NodeCommandTokens(g: Goal, c: Command, now: Time, id: NodeId, token: string)
    requires ChangesOneNode(c) && Apply(g, c, now).Ok? && HoldsToken(Apply(g, c, now).value.nodes, id, token)
    ensures TokenFrom(g.nodes, c, id, token)
  {
    if Apply(g, c, now).value != g {
      NodeCommandMoves(g, c, now);
      if id == c.id {
        OwnNodeTokens(g, c, now, token);
      }
    }
  }

  lemma OwnNodeTokens(g: Goal, c: Command, now: Time, token: string)
    requires ChangesOneNode(c) && Apply(g, c, now).Ok? && HoldsToken(Apply(g, c, now).value.nodes, c.id, token)
    ensures TokenFrom(g.nodes, c, c.id, token)
  {
  }

  lemma InsertionTokens(g: map<NodeId, Node>, h: map<NodeId, Node>, c: Command, id: NodeId, token: string)
    requires c.Add? && Inserts(g, h, c) && HoldsToken(h, id, token)
    ensures HoldsToken(g, id, token)
  {
  }

  lemma GoalCommandTokens(g: Goal, c: Command, now: Time, id: NodeId, token: string)
    requires c.Verify? || c.Pause? || c.Resume? || c.Cancel? || c.Finish?
    requires Apply(g, c, now).Ok? && HoldsToken(Apply(g, c, now).value.nodes, id, token)
    ensures HoldsToken(g.nodes, id, token)
  {
    if c.Cancel? {
      assert Apply(g, c, now).value.nodes[id] == CancelledNode(g.nodes[id]);
    }
  }

  lemma ApplyTokens(g: Goal, c: Command, now: Time, id: NodeId, token: string)
    requires Apply(g, c, now).Ok? && HoldsToken(Apply(g, c, now).value.nodes, id, token)
    ensures TokenFrom(g.nodes, c, id, token)
  {
    if ChangesOneNode(c) {
      NodeCommandTokens(g, c, now, id, token);
    } else if c.Add? {
      AddInserts(g, c, now);
      InsertionTokens(g.nodes, AddNode(g, c, now).value.nodes, c, id, token);
    } else {
      GoalCommandTokens(g, c, now, id, token);
    }
  }

  lemma DrawnIsNotFresh(g: Goal, token: string)
    requires Drawn(g, token)
    ensures !FreshToken(Entries(g.events), token)
  {
    var id :| LogPrepareAgent(id, token) in Entries(g.events);
    assert EntryToken(LogPrepareAgent(id, token)) == Some(token);
  }

  // Every dispatch after a commit was there before or was prepared by it under a new token.
  lemma CommitTokens(g: Goal, c: Command, source: string, now: Time, id: NodeId, token: string)
    requires DrawsFreshTokens(g, c) && Commit(g, c, source, now).Ok?
    requires HoldsToken(Commit(g, c, source, now).value.nodes, id, token)
    ensures HoldsToken(g.nodes, id, token) || !Drawn(g, token)
  {
    CommitParts(g, c, source, now);
    ApplyTokens(g, c, now, id, token);
    if Drawn(g, token) {
      DrawnIsNotFresh(g, token);
    }
  }

  lemma CommitKeepsLog(g: Goal, c: Command, source: string, now: Time, token: string)
    requires Commit(g, c, source, now).Ok? && Drawn(g, token)
    ensures Drawn(Commit(g, c, source, now).value, token)
  {
    CommitParts(g, c, source, now);
    var id :| LogPrepareAgent(id, token) in Entries(g.events);
    assert LogPrepareAgent(id, token) in Entries(Commit(g, c, source, now).value.events);
  }

  // A spent token stays spent.
  lemma StaysSpent(g: Goal, h: Goal, token: string)
    requires Commits(g, h) && Spent(g, token)
    ensures Spent(h, token)
  {
    var c, source, now :| DrawsFreshTokens(g, c) && Commit(g, c, source, now) == Ok(h);
    CommitKeepsLog(g, c, source, now, token);
    forall id ensures !HoldsToken(h.nodes, id, token) {
      if HoldsToken(h.nodes, id, token) {
        CommitTokens(g, c, source, now, id, token);
        assert false;
      }
    }
  }

  // The end of a dispatch spends its token.
  lemma ResolutionSpends(g: Goal, h: Goal, id: NodeId, token: string)
    requires Inv(g) && Commits(g, h) && Resolves(g, h, id, token)
    ensures Spent(h, token)
  {
    var c, source, now :| DrawsFreshTokens(g, c) && Commit(g, c, source, now) == Ok(h);
    HeldTokenIsDrawn(g, id, token);
    CommitKeepsLog(g, c, source, now, token);
    forall other ensures !HoldsToken(h.nodes, other, token) {
      if HoldsToken(h.nodes, other, token) {
        CommitTokens(g, c, source, now, other, token);
        OneDispatch(g, id, other, token);
      }
    }
  }

  lemma OneDispatch(g: Goal, x: NodeId, y: NodeId, token: string)
    requires Exclusive(g.nodes) && HoldsToken(g.nodes, x, token) && HoldsToken(g.nodes, y, token)
    ensures x == y
  {
  }

  // A spent token attaches no agent, aborts no dispatch and cannot be handed out again.
  lemma SpentIsRefused(g: Goal, token: string, id: NodeId, agent: Option<string>, source: string, now: Time)
    requires Spent(g, token)
    ensures Commit(g, Start(id, agent, Some(token)), source, now).Err?
    ensures Commit(g, AbortAgent(id, token), source, now).Err?
    ensures !DrawsFreshTokens(g, PrepareAgent(id, token))
  {
    assert !HoldsToken(g.nodes, id, token);
    SpentStartFails(g, token, id, agent, now);
    DrawnIsNotFresh(g, token);
  }

  lemma SpentStartFails(g: Goal, token: string, id: NodeId, agent: Option<string>, now: Time)
    requires !HoldsToken(g.nodes, id, token)
    ensures StartNode(g, id, agent, Some(token), now).Err? && AbortDispatch(g, id, token, now).Err?
  {
  }

  ghost predicate NeverUnspent(history: seq<Goal>, token: string) {
    forall i :: 0 <= i < |history| - 1 && Spent(history[i], token) ==> Spent(history[i + 1], token)
  }

  lemma {:induction false} SpentForGood(history: seq<Goal>, i: nat, j: nat, token: string)
    requires NeverUnspent(history, token) && i <= j < |history| && Spent(history[i], token)
    ensures Spent(history[j], token)
  {
    if i < j {
      SpentForGood(history, i, j - 1, token);
      assert Spent(history[j - 1 + 1], token);
    }
  }

  lemma HistoryNeverUnspent(history: seq<Goal>, token: string)
    requires IsHistory(history)
    ensures NeverUnspent(history, token)
  {
    forall i | 0 <= i < |history| - 1 && Spent(history[i], token) ensures Spent(history[i + 1], token) {
      StaysSpent(history[i], history[i + 1], token);
    }
  }

  lemma StepSpends(history: seq<Goal>, i: nat, x: NodeId, token: string)
    requires IsHistory(history) && i < |history| - 1 && Resolves(history[i], history[i + 1], x, token)
    ensures Spent(history[i + 1], token) && Exclusive(history[i].nodes)
  {
    HistoryInv(history, i);
    assert Commits(history[i], history[i + 1]);
    ResolutionSpends(history[i], history[i + 1], x, token);
  }

  lemma SpentIsNotHeld(g: Goal, id: NodeId, token: string)
    requires HoldsToken(g.nodes, id, token)
    ensures !Spent(g, token)
  {
  }

  // In every history each token is resolved in at most one step and for one node, so it attaches
  // at most one agent; from then on it is spent.
  lemma TokenResolvesOnce(history: seq<Goal>, i: nat, j: nat, x: NodeId, y: NodeId, token: string)
    requires IsHistory(history) && i < |history| - 1 && j < |history| - 1
    requires Resolves(history[i], history[i + 1], x, token) && Resolves(history[j], history[j + 1], y, token)
    ensures i == j && x == y && Spent(history[i + 1], token)
  {
    StepSpends(history, i, x, token);
    StepSpends(history, j, y, token);
    HistoryNeverUnspent(history, token);
    SpentIsNotHeld(history[i], x, token);
    SpentIsNotHeld(history[j], y, token);
    if i < j {
      SpentForGood(history, i + 1, j, token);
      assert false;
    } else if j < i {
      SpentForGood(history, j + 1, i, token);
      assert false;
    }
    OneDispatch(history[i], x, y, token);
  }
}
