// Which nodes may be started next, and why an open goal can only be blocked by failure.
module GoalFrontier {
  import opened Base
  import Graph
  import opened GoalModel
  import opened GoalOps
  import opened GoalSchedule
  import opened GoalLog
  import opened GoalRuns
  import GoalValidity

  // The order in which the program meets the nodes.
  ghost predicate Enumerates(order: seq<NodeId>, nodes: map<NodeId, Node>) {
    && (forall id :: id in order <==> id in nodes)
    && (forall i, j :: 0 <= i < j < |order| ==> order[i] != order[j])
  }

  // `_raw_ready_nodes`
  function RawReady(nodes: map<NodeId, Node>, order: seq<NodeId>): (r: seq<NodeId>)
    ensures forall id :: id in r <==> id in order && id in nodes && NodeIsReady(nodes[id], nodes)
    ensures (forall i, j :: 0 <= i < j < |order| ==> order[i] != order[j]) ==>
      (forall i, j :: 0 <= i < j < |r| ==> r[i] != r[j])
  {
    if order == [] then []
    else
      var prefix := RawReady(nodes, order[..|order| - 1]);
      var last := order[|order| - 1];
      assert order == order[..|order| - 1] + [last];
      if last in nodes && NodeIsReady(nodes[last], nodes) then prefix + [last] else prefix
  }

  predicate ConflictsWithAny(nodes: map<NodeId, Node>, id: NodeId, chosen: seq<NodeId>)
    requires id in nodes && forall c :: c in chosen ==> c in nodes
  {
    exists c :: c in chosen && NodesConflict(nodes[id], nodes[c])
  }

  // A set of nodes that can all hold their scopes at once, next to what is active.
  ghost predicate Compatible(nodes: map<NodeId, Node>, chosen: seq<NodeId>) {
    && (forall id :: id in chosen ==> id in nodes && NodeIsReady(nodes[id], nodes) && !ConflictsWithActive(nodes[id], nodes))
    && (forall i, j :: 0 <= i < j < |chosen| ==> chosen[i] != chosen[j])
    && (forall x, y :: x in chosen && y in chosen && x != y ==> !NodesConflict(nodes[x], nodes[y]))
  }

  // The ready nodes are met in the order of the file.
  lemma {:induction false} RawReadyInOrder(nodes: map<NodeId, Node>, order: seq<NodeId>)
    requires forall i, j :: 0 <= i < j < |order| ==> order[i] != order[j]
    ensures Follows(RawReady(nodes, order), order)
    decreases |order|
  {
    if order != [] {
      var init, last := order[..|order| - 1], order[|order| - 1];
      RawReadyInOrder(nodes, init);
      FollowsAppend(RawReady(nodes, init), init, last);
      assert order == init + [last];
    }
  }

  // `ready_nodes`: greedy selection in order.
  method ReadyNodes(g: Goal, order: seq<NodeId>) returns (selected: seq<NodeId>)
    requires Enumerates(order, g.nodes)
    ensures g.status != GoalOpen || HasStatus(g.nodes, Dispatching) ==> selected == []
    ensures Compatible(g.nodes, selected)
    ensures g.status == GoalOpen && !HasStatus(g.nodes, Dispatching) ==> Frontier(g.nodes, RawReady(g.nodes, order), selected)
    ensures Follows(selected, RawReady(g.nodes, order))
  {
    selected := [];
    var raw := RawReady(g.nodes, order);
    NothingSelected(g.nodes, raw);
    if g.status != GoalOpen || HasStatus(g.nodes, Dispatching) {
      return;
    }
    for i := 0 to |raw|
      invariant Selects(g.nodes, raw[..i], selected)
    {
      var candidate := raw[i];
      ghost var before := selected;
      NextCandidate(raw, i);
      if !ConflictsWithActive(g.nodes[candidate], g.nodes) && !ConflictsWithAny(g.nodes, candidate, selected) {
        selected := selected + [candidate];
      }
      SelectsNext(g.nodes, raw[..i], before, candidate, selected);
    }
    assert raw[..|raw|] == raw;
  }

  lemma NextCandidate(raw: seq<NodeId>, i: nat)
    requires i < |raw| && forall j, k :: 0 <= j < k < |raw| ==> raw[j] != raw[k]
    ensures raw[..i + 1] == raw[..i] + [raw[i]] && raw[i] !in raw[..i] && raw[i] in raw
  {
  }

  // The state of the selection when the nodes in `raw` have been met.
  ghost predicate Selects(nodes: map<NodeId, Node>, raw: seq<NodeId>, selected: seq<NodeId>) {
    Compatible(nodes, selected) && Frontier(nodes, raw, selected) && Follows(selected, raw)
  }

  lemma NothingSelected(nodes: map<NodeId, Node>, raw: seq<NodeId>)
    ensures Compatible(nodes, []) && Follows([], raw) && Selects(nodes, raw[..0], [])
  {
  }

  lemma SelectsNext(nodes: map<NodeId, Node>, raw: seq<NodeId>, selected: seq<NodeId>, candidate: NodeId, next: seq<NodeId>)
    requires Selects(nodes, raw, selected) && candidate !in raw && candidate in nodes && NodeIsReady(nodes[candidate], nodes)
    requires next == if !ConflictsWithActive(nodes[candidate], nodes) && !ConflictsWithAny(nodes, candidate, selected)
                     then selected + [candidate] else selected
    ensures Selects(nodes, raw + [candidate], next)
  {
    if next != selected {
      CompatibleGrows(nodes, selected, candidate);
    }
    FrontierGrows(nodes, raw, selected, candidate, next);
    FollowsAppend(selected, raw, candidate);
  }

  // The selection is made from the ready nodes in order, and a ready node is left out only
  // because it conflicts with an active node or with one selected before it.
  ghost predicate Frontier(nodes: map<NodeId, Node>, raw: seq<NodeId>, selected: seq<NodeId>) {
    && (forall id :: id in selected ==> id in raw)
    && (forall k :: 0 <= k < |raw| ==> raw[k] in selected || LeftOut(nodes, raw, selected, k))
  }

  ghost predicate LeftOut(nodes: map<NodeId, Node>, raw: seq<NodeId>, selected: seq<NodeId>, k: nat)
    requires k < |raw|
  {
    raw[k] in nodes &&
    (ConflictsWithActive(nodes[raw[k]], nodes)
     || exists c :: c in selected && c in raw[..k] && c in nodes && NodesConflict(nodes[raw[k]], nodes[c]))
  }

  lemma CompatibleGrows(nodes: map<NodeId, Node>, selected: seq<NodeId>, candidate: NodeId)
    requires Compatible(nodes, selected) && candidate in nodes && candidate !in selected
    requires NodeIsReady(nodes[candidate], nodes) && !ConflictsWithActive(nodes[candidate], nodes)
    requires !ConflictsWithAny(nodes, candidate, selected)
    ensures Compatible(nodes, selected + [candidate])
  {
    forall x, y | x in selected + [candidate] && y in selected + [candidate] && x != y
      ensures !NodesConflict(nodes[x], nodes[y])
    {
      ConflictIsSymmetric(nodes[x], nodes[y]);
    }
  }

  lemma FrontierGrows(nodes: map<NodeId, Node>, raw: seq<NodeId>, selected: seq<NodeId>, candidate: NodeId, next: seq<NodeId>)
    requires Frontier(nodes, raw, selected) && Compatible(nodes, selected) && candidate in nodes
    requires next == selected + [candidate] ||
             (next == selected && (ConflictsWithActive(nodes[candidate], nodes) || ConflictsWithAny(nodes, candidate, selected)))
    ensures Frontier(nodes, raw + [candidate], next)
  {
    var longer := raw + [candidate];
    forall k | 0 <= k < |longer| ensures longer[k] in next || LeftOut(nodes, longer, next, k) {
      if k < |raw| {
        assert longer[..k] == raw[..k];
        assert raw[k] in selected || LeftOut(nodes, raw, selected, k);
      } else {
        assert longer[..k] == raw;
      }
    }
  }

  // ---- The whole frontier can be started, in any order --------------------------------

  // Starting one node: an agent is prepared under its own token and attached, any other node is
  // started directly.
  function LaunchCommands(nodes: map<NodeId, Node>, id: NodeId, token: NodeId -> string, agent: NodeId -> string): seq<Command>
    requires id in nodes
  {
    if nodes[id].kind == Agent then [PrepareAgent(id, token(id)), Start(id, Some(agent(id)), Some(token(id)))]
    else [Start(id, None, None)]
  }

  function StartCommands(nodes: map<NodeId, Node>, ids: seq<NodeId>, token: NodeId -> string, agent: NodeId -> string): seq<Command>
    requires forall id :: id in ids ==> id in nodes
  {
    if ids == [] then []
    else LaunchCommands(nodes, ids[0], token, agent) + StartCommands(nodes, ids[1..], token, agent)
  }

  // One transaction of a sequence.
  type Transaction = (Goal, Command) -> Outcome

  // Each at its own time.
  ghost function CommitAt(source: string, clock: Command -> Time): Transaction {
    (g: Goal, c: Command) => Commit(g, c, source, clock(c))
  }

  // One transaction after the other.
  ghost function All(step: Transaction, g: Goal, commands: seq<Command>): Outcome
    decreases |commands|
  {
    if commands == [] then Ok(g)
    else
      match step(g, commands[0])
      case Err(e) => Err(e)
      case Ok(h) => All(step, h, commands[1..])
  }

  // Every generated identifier is new to the log at the moment it is recorded.
  ghost predicate AllDrawFresh(step: Transaction, g: Goal, commands: seq<Command>)
    decreases |commands|
  {
    commands == [] ||
    (DrawsFreshTokens(g, commands[0])
     && (step(g, commands[0]).Ok? ==> AllDrawFresh(step, step(g, commands[0]).value, commands[1..])))
  }

  lemma {:induction false} AllConcat(step: Transaction, g: Goal, first: seq<Command>, second: seq<Command>)
    requires All(step, g, first).Ok?
    ensures All(step, g, first + second) == All(step, All(step, g, first).value, second)
    ensures AllDrawFresh(step, g, first) && AllDrawFresh(step, All(step, g, first).value, second)
            ==> AllDrawFresh(step, g, first + second)
    decreases |first|
  {
    if first == [] {
      assert first + second == second;
    } else {
      assert (first + second)[1..] == first[1..] + second;
      AllConcat(step, step(g, first[0]).value, first[1..], second);
    }
  }

  // One node got a new status, and nothing else changed.
  ghost predicate OnlyMoved(g: map<NodeId, Node>, h: map<NodeId, Node>, id: NodeId, status: NodeStatus) {
    && h.Keys == g.Keys && id in g
    && h[id].status == status && SameScope(g[id], h[id])
    && (forall y :: y in g && y != id ==> h[y] == g[y])
  }

  ghost predicate MayStart(nodes: map<NodeId, Node>, id: NodeId) {
    && !HasStatus(nodes, Dispatching)
    && id in nodes && NodeIsReady(nodes[id], nodes) && !ConflictsWithActive(nodes[id], nodes)
  }

  // The guards of the command pass, and this is its effect.
  ghost predicate Moves(g: Goal, c: Command, now: Time, id: NodeId, status: NodeStatus) {
    && Apply(g, c, now).Ok? && GoalValidity.Acceptable(g, c)
    && var raw := Apply(g, c, now).value;
       raw != g && raw.status == GoalOpen && OnlyMoved(g.nodes, raw.nodes, id, status)
  }

  lemma AgentIsPrepared(g: Goal, c: Command, now: Time)
    requires c.PrepareAgent? && g.status == GoalOpen && MayStart(g.nodes, c.id) && g.nodes[c.id].kind == Agent && NonBlank(c.token)
    ensures Moves(g, c, now, c.id, Dispatching) && HoldsToken(Apply(g, c, now).value.nodes, c.id, c.token)
  {
    assert |Apply(g, c, now).value.events| == |g.events| + 1;
  }

  lemma AgentIsAttached(g: Goal, c: Command, now: Time)
    requires c.Start? && g.status == GoalOpen && c.agentId.Some? && c.dispatchToken.Some?
    requires HoldsToken(g.nodes, c.id, c.dispatchToken.value) && NonBlank(c.agentId.value) && NonBlank(c.dispatchToken.value)
    ensures Moves(g, c, now, c.id, Running)
  {
    assert |Apply(g, c, now).value.events| == |g.events| + 1;
  }

  lemma NodeIsStarted(g: Goal, c: Command, now: Time)
    requires c.Start? && g.status == GoalOpen && c.agentId.None? && c.dispatchToken.None?
    requires MayStart(g.nodes, c.id) && g.nodes[c.id].kind != Agent
    ensures Moves(g, c, now, c.id, Running)
  {
    assert |Apply(g, c, now).value.events| == |g.events| + 1;
  }

  // The commit of such a command.
  ghost predicate Committed(g: Goal, h: Goal, c: Command, id: NodeId, status: NodeStatus) {
    && ValidGoal(h) && h.status == GoalOpen && OnlyMoved(g.nodes, h.nodes, id, status)
    && Entries(h.events) == Entries(g.events) + [EntryFor(c)]
  }

  lemma MoveCommitted(g: Goal, c: Command, source: string, now: Time, id: NodeId, status: NodeStatus)
    requires ValidGoal(g) && Moves(g, c, now, id, status)
    ensures Commit(g, c, source, now).Ok?
    ensures var h := Commit(g, c, source, now).value;
            Committed(g, h, c, id, status) && h.nodes == Apply(g, c, now).value.nodes
  {
    GoalValidity.CommandCommitted(g, c, source, now);
  }

  // Every agent among the nodes gets a name, and a token of its own that is new to the log.
  ghost predicate Tokens(g: Goal, ids: seq<NodeId>, token: NodeId -> string, agent: NodeId -> string) {
    && (forall id :: id in ids && id in g.nodes && g.nodes[id].kind == Agent ==>
         NonBlank(agent(id)) && FreshToken(Entries(g.events), token(id)))
    && (forall x, y :: x in ids && y in ids && x != y ==> token(x) != token(y))
  }

  // New to the log, apart from the tokens that were used up.
  ghost predicate KeepsFresh(g: Goal, h: Goal, used: string) {
    forall t :: t != used && FreshToken(Entries(g.events), t) ==> FreshToken(Entries(h.events), t)
  }

  // A node that is not an agent is started by one transaction.
  lemma NodeLaunched(g: Goal, c: Command, source: string, now: Time)
    requires ValidGoal(g) && g.status == GoalOpen && c.Start? && c.agentId.None? && c.dispatchToken.None?
    requires MayStart(g.nodes, c.id) && g.nodes[c.id].kind != Agent
    ensures Commit(g, c, source, now).Ok? && Committed(g, Commit(g, c, source, now).value, c, c.id, Running)
  {
    NodeIsStarted(g, c, now);
    MoveCommitted(g, c, source, now, c.id, Running);
  }

  // An agent is started by two.
  lemma AgentPrepared(g: Goal, c: Command, source: string, now: Time)
    requires ValidGoal(g) && g.status == GoalOpen && c.PrepareAgent? && NonBlank(c.token)
    requires MayStart(g.nodes, c.id) && g.nodes[c.id].kind == Agent
    ensures Commit(g, c, source, now).Ok?
    ensures var p := Commit(g, c, source, now).value;
            Committed(g, p, c, c.id, Dispatching) && HoldsToken(p.nodes, c.id, c.token)
  {
    AgentIsPrepared(g, c, now);
    MoveCommitted(g, c, source, now, c.id, Dispatching);
  }

  lemma AgentAttached(p: Goal, c: Command, source: string, now: Time)
    requires ValidGoal(p) && p.status == GoalOpen && c.Start? && c.agentId.Some? && c.dispatchToken.Some?
    requires HoldsToken(p.nodes, c.id, c.dispatchToken.value) && NonBlank(c.agentId.value) && NonBlank(c.dispatchToken.value)
    ensures Commit(p, c, source, now).Ok? && Committed(p, Commit(p, c, source, now).value, c, c.id, Running)
  {
    AgentIsAttached(p, c, now);
    MoveCommitted(p, c, source, now, c.id, Running);
  }

  // A node is started by its commands.
  ghost predicate Launches(step: Transaction, g: Goal, commands: seq<Command>, id: NodeId, used: string) {
    && AllDrawFresh(step, g, commands) && All(step, g, commands).Ok?
    && var h := All(step, g, commands).value;
       h.status == GoalOpen && OnlyMoved(g.nodes, h.nodes, id, Running) && KeepsFresh(g, h, used)
  }

  lemma TwoSteps(step: Transaction, g: Goal, c: Command, p: Goal, d: Command, h: Goal, id: NodeId, used: string)
    requires step(g, c) == Ok(p) && step(p, d) == Ok(h) && DrawsFreshTokens(g, c) && DrawsFreshTokens(p, d)
    requires h.status == GoalOpen && OnlyMoved(g.nodes, p.nodes, id, Dispatching) && OnlyMoved(p.nodes, h.nodes, id, Running)
    requires KeepsFresh(g, p, used) && KeepsFresh(p, h, used)
    ensures All(step, g, [c, d]) == Ok(h) && Launches(step, g, [c, d], id, used)
  {
    assert [c, d][1..] == [d] && [d][1..] == [];
    assert All(step, p, [d]) == All(step, h, []) && AllDrawFresh(step, p, [d]);
  }

  lemma OneStep(step: Transaction, g: Goal, c: Command, h: Goal, id: NodeId, used: string)
    requires step(g, c) == Ok(h) && DrawsFreshTokens(g, c)
    requires h.status == GoalOpen && OnlyMoved(g.nodes, h.nodes, id, Running) && KeepsFresh(g, h, used)
    ensures All(step, g, [c]) == Ok(h) && Launches(step, g, [c], id, used)
  {
    assert [c][1..] == [];
  }

  // Starting an agent uses up its token, starting another node none.
  lemma EntriesKeepFresh(g: Goal, h: Goal, e: Entry, used: string)
    requires Entries(h.events) == Entries(g.events) + [e] && (EntryToken(e).Some? ==> EntryToken(e).value == used)
    ensures KeepsFresh(g, h, used)
  {
  }

  lemma AgentCommits(g: Goal, c: Command, d: Command, source: string, clock: Command -> Time) returns (p: Goal, h: Goal)
    requires ValidGoal(g) && g.status == GoalOpen && c.PrepareAgent? && NonBlank(c.token) && d.Start? && d.id == c.id
    requires d.agentId.Some? && d.dispatchToken == Some(c.token) && NonBlank(d.agentId.value)
    requires MayStart(g.nodes, c.id) && g.nodes[c.id].kind == Agent
    ensures Commit(g, c, source, clock(c)) == Ok(p) && Commit(p, d, source, clock(d)) == Ok(h)
    ensures Committed(g, p, c, c.id, Dispatching) && Committed(p, h, d, c.id, Running)
  {
    AgentPrepared(g, c, source, clock(c));
    p := Commit(g, c, source, clock(c)).value;
    AgentAttached(p, d, source, clock(d));
    h := Commit(p, d, source, clock(d)).value;
  }

  lemma AgentSteps(step: Transaction, g: Goal, c: Command, p: Goal, d: Command, h: Goal)
    requires c.PrepareAgent? && d.Start? && FreshToken(Entries(g.events), c.token)
    requires step(g, c) == Ok(p) && step(p, d) == Ok(h) && h.status == GoalOpen
    requires OnlyMoved(g.nodes, p.nodes, c.id, Dispatching) && OnlyMoved(p.nodes, h.nodes, c.id, Running)
    requires Entries(p.events) == Entries(g.events) + [EntryFor(c)] && Entries(h.events) == Entries(p.events) + [EntryFor(d)]
    ensures Launches(step, g, [c, d], c.id, c.token) && All(step, g, [c, d]) == Ok(h)
  {
    EntriesKeepFresh(g, p, EntryFor(c), c.token);
    EntriesKeepFresh(p, h, EntryFor(d), c.token);
    TwoSteps(step, g, c, p, d, h, c.id, c.token);
  }

  lemma AgentLaunches(g: Goal, c: Command, d: Command, source: string, clock: Command -> Time)
    requires ValidGoal(g) && g.status == GoalOpen && c.PrepareAgent? && d.Start? && d.id == c.id
    requires d.agentId.Some? && d.dispatchToken == Some(c.token) && NonBlank(d.agentId.value)
    requires FreshToken(Entries(g.events), c.token)
    requires MayStart(g.nodes, c.id) && g.nodes[c.id].kind == Agent
    ensures Launches(CommitAt(source, clock), g, [c, d], c.id, c.token)
    ensures ValidGoal(All(CommitAt(source, clock), g, [c, d]).value)
  {
    var p, h := AgentCommits(g, c, d, source, clock);
    AgentSteps(CommitAt(source, clock), g, c, p, d, h);
  }

  lemma NodeSteps(step: Transaction, g: Goal, c: Command, h: Goal, used: string)
    requires c.Start? && step(g, c) == Ok(h) && h.status == GoalOpen && OnlyMoved(g.nodes, h.nodes, c.id, Running)
    requires Entries(h.events) == Entries(g.events) + [EntryFor(c)]
    ensures Launches(step, g, [c], c.id, used) && All(step, g, [c]) == Ok(h)
  {
    EntriesKeepFresh(g, h, EntryFor(c), used);
    OneStep(step, g, c, h, c.id, used);
  }

  lemma NodeLaunches(g: Goal, c: Command, used: string, source: string, clock: Command -> Time)
    requires ValidGoal(g) && g.status == GoalOpen && c.Start? && c.agentId.None? && c.dispatchToken.None?
    requires MayStart(g.nodes, c.id) && g.nodes[c.id].kind != Agent
    ensures Launches(CommitAt(source, clock), g, [c], c.id, used)
    ensures ValidGoal(All(CommitAt(source, clock), g, [c]).value)
  {
    NodeLaunched(g, c, source, clock(c));
    var h := Commit(g, c, source, clock(c)).value;
    NodeSteps(CommitAt(source, clock), g, c, h, used);
  }

  lemma FirstLaunches(g: Goal, id: NodeId, token: NodeId -> string, agent: NodeId -> string, source: string, clock: Command -> Time)
    requires ValidGoal(g) && g.status == GoalOpen && MayStart(g.nodes, id)
    requires g.nodes[id].kind == Agent ==> NonBlank(agent(id)) && FreshToken(Entries(g.events), token(id))
    ensures var commands := LaunchCommands(g.nodes, id, token, agent);
            Launches(CommitAt(source, clock), g, commands, id, token(id)) && ValidGoal(All(CommitAt(source, clock), g, commands).value)
  {
    if g.nodes[id].kind == Agent {
      AgentLaunches(g, PrepareAgent(id, token(id)), Start(id, Some(agent(id)), Some(token(id))), source, clock);
    } else {
      NodeLaunches(g, Start(id, None, None), token(id), source, clock);
    }
  }

  lemma RestStaysCompatible(g: map<NodeId, Node>, h: map<NodeId, Node>, ids: seq<NodeId>)
    requires ids != [] && Compatible(g, ids) && h.Keys == g.Keys
    requires h[ids[0]].status == Running && SameScope(g[ids[0]], h[ids[0]])
    requires forall y :: y in g && y != ids[0] ==> h[y] == g[y]
    ensures Compatible(h, ids[1..])
  {
    forall id | id in ids[1..]
      ensures id in h && NodeIsReady(h[id], h) && !ConflictsWithActive(h[id], h)
    {
      assert id != ids[0] && NodeIsReady(g[id], g) && g[ids[0]].status == Pending;
      forall y | y in h && IsActive(h[y]) ensures !NodesConflict(h[id], h[y]) {
        if y == ids[0] {
          SameScopeSameConflict(g[id], g[y], h[id], h[y]);
        }
      }
    }
  }

  lemma {:induction false} SameStartCommands(g: map<NodeId, Node>, h: map<NodeId, Node>, ids: seq<NodeId>,
                                             token: NodeId -> string, agent: NodeId -> string)
    requires forall id :: id in ids ==> id in g && id in h && g[id].kind == h[id].kind
    ensures StartCommands(g, ids, token, agent) == StartCommands(h, ids, token, agent)
    decreases |ids|
  {
    if ids != [] {
      SameStartCommands(g, h, ids[1..], token, agent);
    }
  }

  // What starting the nodes with these commands comes to.
  ghost predicate AllStart(step: Transaction, g: Goal, ids: seq<NodeId>, commands: seq<Command>) {
    && AllDrawFresh(step, g, commands) && All(step, g, commands).Ok?
    && var h := All(step, g, commands).value;
    && h.nodes.Keys == g.nodes.Keys
    && (forall id :: id in ids && id in h.nodes ==> h.nodes[id].status == Running)
    && (forall y :: y in g.nodes && y !in ids ==> h.nodes[y] == g.nodes[y])
  }

  lemma LaunchThenAll(step: Transaction, g: Goal, ids: seq<NodeId>, first: seq<Command>, rest: seq<Command>, used: string)
    requires ids != [] && ids[0] !in ids[1..] && Launches(step, g, first, ids[0], used)
    requires AllStart(step, All(step, g, first).value, ids[1..], rest)
    ensures AllStart(step, g, ids, first + rest)
  {
    AllConcat(step, g, first, rest);
    var m := All(step, g, first).value;
    MovedThenAll(g.nodes, m.nodes, All(step, m, rest).value.nodes, ids);
  }

  lemma MovedThenAll(g: map<NodeId, Node>, m: map<NodeId, Node>, h: map<NodeId, Node>, ids: seq<NodeId>)
    requires ids != [] && ids[0] !in ids[1..] && OnlyMoved(g, m, ids[0], Running) && h.Keys == m.Keys
    requires forall id :: id in ids[1..] && id in h ==> h[id].status == Running
    requires forall y :: y in m && y !in ids[1..] ==> h[y] == m[y]
    ensures h.Keys == g.Keys
    ensures forall id :: id in ids && id in h ==> h[id].status == Running
    ensures forall y :: y in g && y !in ids ==> h[y] == g[y]
  {
    assert ids == [ids[0]] + ids[1..];
  }

  // Every guard of `prepare_agent` and `start_node` passes, and every transaction is accepted, for
  // all members of a compatible set, whatever the order they are started in, with a new token for
  // every agent.
  lemma {:induction false} FrontierStartsInAnyOrder(g: Goal, ids: seq<NodeId>, token: NodeId -> string, agent: NodeId -> string,
                                                    source: string, clock: Command -> Time)
    requires ValidGoal(g) && g.status == GoalOpen && !HasStatus(g.nodes, Dispatching)
    requires Compatible(g.nodes, ids) && Tokens(g, ids, token, agent)
    ensures AllStart(CommitAt(source, clock), g, ids, StartCommands(g.nodes, ids, token, agent))
    decreases |ids|
  {
    if ids != [] {
      var first := LaunchCommands(g.nodes, ids[0], token, agent);
      assert ids[0] in ids && ids[0] !in ids[1..];
      FirstLaunches(g, ids[0], token, agent, source, clock);
      var h := All(CommitAt(source, clock), g, first).value;
      NextMayStart(g, h, ids, token, agent);
      SameStartCommands(g.nodes, h.nodes, ids[1..], token, agent);
      FrontierStartsInAnyOrder(h, ids[1..], token, agent, source, clock);
      LaunchThenAll(CommitAt(source, clock), g, ids, first, StartCommands(g.nodes, ids[1..], token, agent), token(ids[0]));
    }
  }

  // After the first is started, the rest can still be.
  lemma NextMayStart(g: Goal, h: Goal, ids: seq<NodeId>, token: NodeId -> string, agent: NodeId -> string)
    requires ids != [] && Compatible(g.nodes, ids) && Tokens(g, ids, token, agent) && !HasStatus(g.nodes, Dispatching)
    requires OnlyMoved(g.nodes, h.nodes, ids[0], Running) && KeepsFresh(g, h, token(ids[0]))
    ensures Compatible(h.nodes, ids[1..]) && Tokens(h, ids[1..], token, agent) && !HasStatus(h.nodes, Dispatching)
    ensures forall id :: id in ids[1..] ==> h.nodes[id].kind == g.nodes[id].kind
  {
    RestStaysCompatible(g.nodes, h.nodes, ids);
    assert forall id :: id in ids[1..] ==> id in ids && id != ids[0];
  }

  lemma CompatibleReordered(nodes: map<NodeId, Node>, chosen: seq<NodeId>, ids: seq<NodeId>)
    requires Compatible(nodes, chosen)
    requires forall i, j :: 0 <= i < j < |ids| ==> ids[i] != ids[j]
    requires forall id :: id in ids ==> id in chosen
    ensures Compatible(nodes, ids)
  {
  }

  // ---- Blocked means failed ------------------------------------------------------------

  datatype Activity =
    | IsPaused | IsCompleted | IsCancelled | IsDispatching | OrphanedWait | IsReady | IsRunning | IsWaiting
    | Verified | AwaitingVerification | Blocked | Idle

  predicate OrphanedWaits(nodes: map<NodeId, Node>, held: set<string>) {
    exists id :: id in nodes && nodes[id].status == Waiting && (nodes[id].wait.None? || nodes[id].wait.value.lockFile !in held)
  }

  // Some ready node is compatible with everything that is active.
  ghost predicate Startable(nodes: map<NodeId, Node>) {
    exists id :: id in nodes && NodeIsReady(nodes[id], nodes) && !ConflictsWithActive(nodes[id], nodes)
  }

  lemma EmptyFrontier(nodes: map<NodeId, Node>, raw: seq<NodeId>, selected: seq<NodeId>)
    requires Frontier(nodes, raw, selected) && Compatible(nodes, selected)
    requires forall id :: id in nodes && NodeIsReady(nodes[id], nodes) ==> id in raw
    ensures selected == [] <==> !Startable(nodes)
  {
    if selected != [] {
      assert selected[0] in selected;
    }
    if Startable(nodes) {
      var id :| id in nodes && NodeIsReady(nodes[id], nodes) && !ConflictsWithActive(nodes[id], nodes);
      var k :| 0 <= k < |raw| && raw[k] == id;
      assert raw[k] in selected || LeftOut(nodes, raw, selected, k);
    }
  }

  ghost predicate AnyReady(nodes: map<NodeId, Node>) {
    exists id :: id in nodes && NodeIsReady(nodes[id], nodes)
  }

  // Open, with unfinished work, nothing under way and nothing that could be started.
  ghost predicate IsBlocked(g: Goal) {
    && g.status == GoalOpen
    && (forall id :: id in g.nodes ==> !Claims(g.nodes[id]))
    && !AnyReady(g.nodes)
    && g.nodes != map[] && !AllCompleted(g.nodes)
  }

  // What the conditions that `activity` looks at say about each other.
  lemma ActivitiesExclude(g: Goal, held: set<string>)
    ensures OrphanedWaits(g.nodes, held) ==> HasStatus(g.nodes, Waiting)
    ensures AllCompleted(g.nodes) ==>
      && !HasStatus(g.nodes, Dispatching) && !HasStatus(g.nodes, Running) && !HasStatus(g.nodes, Waiting) && !Startable(g.nodes)
      && g.nodes != map[]
    ensures IsBlocked(g) <==>
      && g.status == GoalOpen && !HasStatus(g.nodes, Dispatching) && !HasStatus(g.nodes, Running) && !HasStatus(g.nodes, Waiting)
      && !Startable(g.nodes) && g.nodes != map[] && !AllCompleted(g.nodes)
  {
    if !HasStatus(g.nodes, Running) && !HasStatus(g.nodes, Waiting) {
      assert forall id :: id in g.nodes ==> !IsActive(g.nodes[id]);
      assert AnyReady(g.nodes) <==> Startable(g.nodes);
    }
  }

  // `activity`, given which lock files are held.
  method ActivityOf(g: Goal, order: seq<NodeId>, held: set<string>) returns (a: Activity)
    requires Enumerates(order, g.nodes)
    ensures a == IsPaused <==> g.status == GoalPaused
    ensures a == IsCompleted <==> g.status == GoalCompleted
    ensures a == IsCancelled <==> g.status == GoalCancelled
    ensures g.status == GoalOpen ==>
      var dispatching := HasStatus(g.nodes, Dispatching);
      var orphaned := OrphanedWaits(g.nodes, held);
      var quiet := !dispatching && !orphaned && !Startable(g.nodes);
      && (a == IsDispatching <==> dispatching)
      && (a == OrphanedWait <==> !dispatching && orphaned)
      && (a == IsReady <==> !dispatching && !orphaned && Startable(g.nodes))
      && (a == IsRunning <==> quiet && HasStatus(g.nodes, Running))
      && (a == IsWaiting <==> quiet && !HasStatus(g.nodes, Running) && HasStatus(g.nodes, Waiting))
      && (a == Verified <==> AllCompleted(g.nodes) && g.verification.Some?)
      && (a == AwaitingVerification <==> AllCompleted(g.nodes) && g.verification.None?)
      && (a == Idle <==> g.nodes == map[])
    ensures a == Blocked <==> IsBlocked(g)
  {
    ActivitiesExclude(g, held);
    match g.status {
      case GoalPaused => return IsPaused;
      case GoalCompleted => return IsCompleted;
      case GoalCancelled => return IsCancelled;
      case GoalOpen =>
    }
    if HasStatus(g.nodes, Dispatching) {
      return IsDispatching;
    }
    if HasStatus(g.nodes, Waiting) && OrphanedWaits(g.nodes, held) {
      return OrphanedWait;
    }
    var ready := ReadyNodes(g, order);
    EmptyFrontier(g.nodes, RawReady(g.nodes, order), ready);
    if ready != [] {
      return IsReady;
    }
    if HasStatus(g.nodes, Running) {
      return IsRunning;
    }
    if HasStatus(g.nodes, Waiting) {
      return IsWaiting;
    }
    if AllCompleted(g.nodes) {
      return if g.verification.Some? then Verified else AwaitingVerification;
    }
    return if g.nodes != map[] then Blocked else Idle;
  }

  // Some dependency of x, at any distance, has failed.
  ghost predicate FailedUpstream(nodes: map<NodeId, Node>, x: NodeId) {
    exists f :: f in nodes && nodes[f].status == Failed && Graph.Reaches(DepGraph(nodes), x, f)
  }

  // Follow unfinished dependencies from a pending node: unless they lead to a failure they
  // lead, the graph being acyclic, to a node that is ready.
  lemma PendingHasFailureUpstream(nodes: map<NodeId, Node>, x: NodeId)
    requires Graph.Acyclic(DepGraph(nodes)) && !AnyReady(nodes)
    requires forall id :: id in nodes ==> nodes[id].status in {Pending, Completed, Failed}
    requires forall id, d :: id in nodes && d in nodes[id].dependsOn ==> d in nodes
    requires x in nodes && nodes[x].status == Pending
    ensures FailedUpstream(nodes, x)
  {
    var graph := DepGraph(nodes);
    if !FailedUpstream(nodes, x) {
      var s := set y | y in nodes && nodes[y].status == Pending && Graph.Reaches(graph, x, y);
      Graph.ReachesSelf(graph, x);
      assert x in s;
      var y := Graph.AcyclicHasBottom(graph, s);
      assert !NodeIsReady(nodes[y], nodes);
      var d :| d in nodes[y].dependsOn && nodes[d].status != Completed;
      assert Graph.Edge(graph, y, d);
      Graph.ReachesByEdge(graph, y, d);
      Graph.ReachesTransitive(graph, x, y, d);
      assert false;
    }
  }

  lemma BlockedNodesSettled(g: Goal)
    requires IsBlocked(g) && CancelledTogether(g)
    ensures forall id :: id in g.nodes ==> g.nodes[id].status in {Pending, Completed, Failed}
  {
    forall id | id in g.nodes ensures g.nodes[id].status in {Pending, Completed, Failed} {
      assert !Claims(g.nodes[id]);
    }
  }

  lemma DependenciesExist(g: Goal)
    requires ValidParts(g)
    ensures forall id, d :: id in g.nodes && d in g.nodes[id].dependsOn ==> d in g.nodes
  {
    forall id, d | id in g.nodes && d in g.nodes[id].dependsOn ensures d in g.nodes {
      assert ValidNode(id, g.nodes[id], g.nodes.Keys);
    }
  }

  lemma BlockedGoalFailed(g: Goal)
    requires IsBlocked(g) && CancelledTogether(g) && Graph.Acyclic(DepGraph(g.nodes))
    requires forall id, d :: id in g.nodes && d in g.nodes[id].dependsOn ==> d in g.nodes
    ensures HasStatus(g.nodes, Failed)
    ensures forall id :: id in g.nodes && g.nodes[id].status == Pending ==> FailedUpstream(g.nodes, id)
  {
    BlockedNodesSettled(g);
    forall id | id in g.nodes && g.nodes[id].status == Pending ensures FailedUpstream(g.nodes, id) {
      PendingHasFailureUpstream(g.nodes, id);
    }
    var id :| id in g.nodes && g.nodes[id].status != Completed;
    if g.nodes[id].status == Pending {
      assert FailedUpstream(g.nodes, id);
    }
  }

  // In every goal that can come about, being blocked means that some node failed and that
  // every pending node waits, directly or not, for a failed one.
  lemma BlockedByFailure(history: seq<Goal>, i: nat)
    requires IsHistory(history) && i < |history| && IsBlocked(history[i])
    ensures HasStatus(history[i].nodes, Failed)
    ensures forall id :: id in history[i].nodes && history[i].nodes[id].status == Pending ==>
      FailedUpstream(history[i].nodes, id)
  {
    HistoryInv(history, i);
    DependenciesExist(history[i]);
    BlockedGoalFailed(history[i]);
  }
}
