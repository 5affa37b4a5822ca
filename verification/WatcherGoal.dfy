// A watch that belongs to a goal node, next to the goal itself: the program waits for the
// activation of exactly this watch to be committed.
module WatcherGoal {
  import opened Base
  import GoalModel
  import GoalOps
  import GoalLog
  import GoalPermits
  import GoalRuns
  import GoalValidity
  import opened Watcher
  import opened WatcherSafety

  // The watch as its arguments and its record identify it.
  datatype Identity = Identity(node: string, watchId: string, client: GoalModel.Client, thread: string,
                               logFile: string, lockFile: string, startupFile: string, deadline: Time)

  // The receipt `_activate_goal_wait` leaves.
  function Receipt(me: Identity): GoalOps.Receipt {
    GoalOps.Receipt(true, me.watchId, me.node, me.client, me.thread, me.logFile, me.lockFile, Some(me.deadline))
  }

  // `goal_wait_phase`; the goal file may be missing or unreadable.
  function WaitPhase(file: Option<GoalModel.Goal>, me: Identity): GoalPhase {
    if file.None? || me.node !in file.value.nodes then GoalInvalid
    else
      var node := file.value.nodes[me.node];
      if node.wait.None? || node.wait.value.watchId != me.watchId || node.wait.value.client != me.client
         || node.wait.value.thread != me.thread
      then GoalInvalid
      else if node.status == GoalModel.Running && node.wait.value.phase == GoalModel.Prepared then GoalPrepared
      else if node.status == GoalModel.Waiting && node.wait.value.phase == GoalModel.Active then GoalActive
      else GoalInvalid
  }

  // What a poll says about the goal, in a word.
  lemma PhaseTells(g: GoalModel.Goal, me: Identity)
    requires GoalModel.ValidParts(g)
    ensures WaitPhase(None, me) == GoalInvalid
    ensures WaitPhase(Some(g), me) == GoalPrepared <==> IsWaiting(g, me, GoalModel.Prepared)
    ensures WaitPhase(Some(g), me) == GoalActive <==> IsWaiting(g, me, GoalModel.Active)
  {
    if me.node in g.nodes {
      assert GoalModel.ValidNode(me.node, g.nodes[me.node], g.nodes.Keys);
    }
  }

  // The goal's node has a wait, in that phase, for this watch, on behalf of its client and thread.
  ghost predicate IsWaiting(g: GoalModel.Goal, me: Identity, phase: GoalModel.Phase) {
    && GoalPermits.HoldsWait(g, me.node, me.watchId, phase)
    && g.nodes[me.node].wait.value.client == me.client && g.nodes[me.node].wait.value.thread == me.thread
  }

  // Both, with the time and what is in the watch's startup file.
  datatype Pair = Pair(goal: GoalModel.Goal, watch: State, clock: Time, receipt: Option<GoalOps.Receipt>)

  predicate LockIsTaken(s: State) {
    s.pc.Some? && HoldsLock(s.pc.value)
  }

  predicate UsesFiles(wait: GoalModel.Wait, me: Identity) {
    wait.logFile == me.logFile && wait.lockFile == me.lockFile && wait.startupFile == me.startupFile
  }

  // What a command that activates a wait reads: the receipt in the wait's startup file, where only
  // this watch leaves one that names it, and whether the wait's lock is held.
  ghost predicate Reads(p: Pair, me: Identity, c: GoalOps.Command) {
    c.ActivateWait? && c.id in p.goal.nodes && p.goal.nodes[c.id].wait.Some? ==>
      var wait := p.goal.nodes[c.id].wait.value;
      && (wait.startupFile == me.startupFile || (c.receipt.Some? && c.receipt.value.eventId == me.watchId) ==> c.receipt == p.receipt)
      && (wait.lockFile == me.lockFile ==> c.lockHeld == LockIsTaken(p.watch))
  }

  // What an edit of the goal means for the watch: its owner begins or ceases to wait for it.
  function Noticed(cfg: Config, me: Identity, p: Pair, goal: GoalModel.Goal): State {
    var was := WaitPhase(Some(p.goal), me) == GoalActive;
    var now := WaitPhase(Some(goal), me) == GoalActive;
    if now && !was then Next(cfg, p.watch, Own) else if was && !now then Next(cfg, p.watch, Release) else p.watch
  }

  ghost predicate GoalStep(cfg: Config, me: Identity, p: Pair, q: Pair, c: GoalOps.Command, source: string) {
    && GoalLog.DrawsFreshTokens(p.goal, c) && GoalOps.Commit(p.goal, c, source, q.clock) == Ok(q.goal)
    && Reads(p, me, c) && q.receipt == p.receipt && q.watch == Noticed(cfg, me, p, q.goal)
  }

  // A step of the watch; when it polls, it sees the goal as it is, if it can read it, and the time.
  ghost predicate WatchStep(cfg: Config, me: Identity, p: Pair, q: Pair, c: Choice, readable: bool) {
    && q.goal == p.goal && q.watch == Next(cfg, p.watch, c) && !c.Own? && !c.Release?
    && (c.Poll? ==> c.phase == WaitPhase(if readable then Some(p.goal) else None, me) && (c.expired <==> q.clock >= me.deadline))
    && q.receipt == if c.Offer? && p.watch.pc == Some(Polling) then Some(Receipt(me)) else p.receipt
  }

  // Either the goal is edited, or the watch takes a step and sees the goal as it is.
  ghost predicate PairStep(cfg: Config, me: Identity, p: Pair, q: Pair) {
    p.clock <= q.clock
    && ((exists c, source :: GoalStep(cfg, me, p, q, c, source)) || (exists c, readable :: WatchStep(cfg, me, p, q, c, readable)))
  }

  // From the submission of the watch, when the goal does not wait for it yet and it left no receipt.
  ghost predicate IsPairRun(cfg: Config, me: Identity, run: seq<Pair>) {
    && run != [] && cfg.owner == GoalOwner
    && GoalRuns.Inv(run[0].goal) && WaitPhase(Some(run[0].goal), me) != GoalActive
    && run[0].watch == Submitted(cfg) && run[0].receipt.None?
    && forall i :: 0 <= i < |run| - 1 ==> PairStep(cfg, me, run[i], run[i + 1])
  }

  // The program has not run and the task is not on its way to it.
  predicate HeldBack(s: State) {
    && s.starts == 0
    && (s.record.phase == Activating || Late(s.record.phase))
    && (s.pc.Some? ==> s.pc.value.Polling? || LateWrites(s.pc.value))
  }

  lemma ProceedHeldBack(cfg: Config, s: State)
    requires HeldBack(s) && s.pc.Some?
    ensures HeldBack(Proceed(cfg, s))
  {
    match s.pc.value {
      case WriteLog(result, to, next) => assert LateWrites(WriteRecord(result, to, next)) == LateWrites(s.pc.value);
      case Ending(result) =>
        assert LateWrites(WritePhase(Notifying, Delivering(result.(notice := Pending, attempts := 0), true)));
      case _ =>
    }
  }

  lemma DeliveryHeldBack(cfg: Config, s: State, c: Choice)
    requires HeldBack(s) && s.pc.Some? && (c.Attempt? || c.Command? || c.Helper?)
    ensures HeldBack(Next(cfg, s, c))
  {
    var pc := s.pc.value;
    match c {
      case Attempt(current) =>
        if pc.Delivering? {
          TryIsInert(cfg, s, pc.result, pc.failing, IsCurrent(cfg, s, current));
        }
      case Command(outcome) =>
        if pc.Launching? {
          DeliveryIsInert(cfg, pc.result.(notice := if outcome == CommandUnavailable then Unavailable else NotLaunched), pc.failing);
        }
      case Helper(exit, turn) =>
        if pc.Helping? {
          DeliveryIsInert(cfg, HelperResult(cfg, pc.result, exit), pc.failing);
        }
    }
  }

  lemma ResumptionHeldBack(cfg: Config, s: State, current: bool)
    requires HeldBack(s)
    ensures Resumed(cfg, s, current).Polling? || LateWrites(Resumed(cfg, s, current))
  {
    if s.record.result.Some? {
      var r := s.record.result.value;
      DeliveryIsInert(cfg, r, false);
      assert LateWrites(WriteLog(r.(notice := Unconfirmed), Some(Finalizing), Closing(r.(notice := Unconfirmed))));
    }
  }

  lemma RaiseHeldBack(cfg: Config, s: State, turn: bool)
    requires HeldBack(s) && s.pc.Some?
    ensures HeldBack(Next(cfg, s, Raise(turn)))
  {
    var pc := s.pc.value;
    if pc.Delivering? || pc.Launching? || pc.Helping? {
      var raised := pc.result.(notice := Raised);
      assert LateWrites(WriteLog(raised, None, Finishing(raised)));
    }
  }

  // Only the sight of the activated wait lets the program go.
  lemma StepHeldBack(cfg: Config, s: State, c: Choice)
    requires HeldBack(s) && (c.Poll? ==> c.phase != GoalActive)
    ensures HeldBack(Next(cfg, s, c))
  {
    if s.pc.Some? {
      var pc := s.pc.value;
      match c {
        case Go => ProceedHeldBack(cfg, s);
        case Lock(_, current) => ResumptionHeldBack(cfg, s, IsCurrent(cfg, s, current));
        case Poll(_, _) =>
          var r := Saved(ActivationEnded, Silent, 0, None);
          assert LateWrites(WriteLog(r, Some(Finalizing), Ending(r)));
        case Raise(turn) => RaiseHeldBack(cfg, s, turn);
        case Attempt(_) => DeliveryHeldBack(cfg, s, c);
        case Command(_) => DeliveryHeldBack(cfg, s, c);
        case Helper(_, _) => DeliveryHeldBack(cfg, s, c);
        case Ack(current) =>
          if pc.AwaitingWake? {
            var r := AckResult(s, pc.result, IsCurrent(cfg, s, current));
            assert LateWrites(WriteLog(r, Some(Finalizing), Closing(r)));
          }
        case _ =>
      }
    }
  }

  ghost predicate ActivationLogged(g: GoalModel.Goal, me: Identity) {
    GoalModel.LogActivateWait(me.node, me.watchId) in GoalLog.Entries(g.events)
  }

  lemma ActiveWasLogged(g: GoalModel.Goal, me: Identity)
    requires GoalRuns.Inv(g) && WaitPhase(Some(g), me) == GoalActive
    ensures ActivationLogged(g, me)
  {
    var w := g.nodes[me.node].wait.value;
    assert GoalLog.OnTrack(me.node, w, GoalLog.Entries(g.events));
    GoalRuns.StoryIsLogged(GoalLog.Entries(g.events), w.watchId, 1);
  }

  lemma LogOnlyGrows(g: GoalModel.Goal, h: GoalModel.Goal, me: Identity)
    requires g.events <= h.events && ActivationLogged(g, me)
    ensures ActivationLogged(h, me)
  {
    var i :| 0 <= i < |g.events| && GoalLog.Entries(g.events)[i] == GoalModel.LogActivateWait(me.node, me.watchId);
    assert GoalLog.Entries(h.events)[i] == GoalLog.Entries(g.events)[i];
  }

  // ---- A watch that was let go is not waited for again ------------------------------------------

  // Its wait was activated once, and is over.
  ghost predicate LetGo(g: GoalModel.Goal, me: Identity) {
    ActivationLogged(g, me) && WaitPhase(Some(g), me) != GoalActive
  }

  // A wait that is only prepared has not been activated.
  lemma PreparedIsNotActivated(g: GoalModel.Goal, node: string, w: GoalModel.Wait)
    requires GoalLog.OnTrack(node, w, GoalLog.Entries(g.events)) && w.phase == GoalModel.Prepared
    ensures forall n :: GoalModel.LogActivateWait(n, w.watchId) !in GoalLog.Entries(g.events)
  {
    var entries := GoalLog.Entries(g.events);
    forall n ensures GoalModel.LogActivateWait(n, w.watchId) !in entries {
      if GoalModel.LogActivateWait(n, w.watchId) in entries {
        var i :| 0 <= i < |entries| && entries[i] == GoalModel.LogActivateWait(n, w.watchId);
        GoalRuns.StoryPosition(entries, i, w.watchId);
      }
    }
  }

  // The active wait of a node was there before, or was prepared before.
  ghost predicate WaitedBefore(g: map<GoalModel.NodeId, GoalModel.Node>, h: map<GoalModel.NodeId, GoalModel.Node>, me: Identity) {
    && me.node in g && me.node in h && g[me.node].wait.Some?
    && (h[me.node].wait == g[me.node].wait
        || (g[me.node].wait.value.watchId == me.watchId && g[me.node].wait.value.phase == GoalModel.Prepared))
  }

  lemma MovedWait(g: GoalModel.Goal, c: GoalOps.Command, h: GoalModel.Goal, e: GoalModel.Entry, me: Identity)
    requires GoalLog.WaitMoves(g, c, h, e) && WaitPhase(Some(h), me) == GoalActive
    ensures WaitedBefore(g.nodes, h.nodes, me)
  {
  }

  lemma CommitMovesWait(g: GoalModel.Goal, c: GoalOps.Command, source: string, now: Time, raw: GoalModel.Goal, h: GoalModel.Goal, me: Identity)
    requires GoalOps.Commit(g, c, source, now) == Ok(h) && GoalOps.Apply(g, c, now) == Ok(raw)
    requires WaitPhase(Some(h), me) == GoalActive
    ensures WaitedBefore(g.nodes, h.nodes, me)
  {
    GoalRuns.CommitParts(g, c, source, now);
    if raw != g {
      GoalLog.ApplyMovesWaits(g, c, now);
      SameNodesSamePhase(raw, h, me);
      MovedWait(g, c, raw, GoalOps.EntryFor(c), me);
    }
  }

  lemma SameNodesSamePhase(g: GoalModel.Goal, h: GoalModel.Goal, me: Identity)
    requires g.nodes == h.nodes
    ensures WaitPhase(Some(g), me) == WaitPhase(Some(h), me)
  {
  }

  // The goal file supports the watcher's view of its owner: once it has let go of a watch it
  // never waits for it again.
  lemma StaysLetGo(g: GoalModel.Goal, h: GoalModel.Goal, me: Identity)
    requires GoalRuns.Inv(g) && GoalRuns.Commits(g, h) && LetGo(g, me)
    ensures LetGo(h, me)
  {
    GoalRuns.CommitsKeeps(g, h);
    LogOnlyGrows(g, h, me);
    if WaitPhase(Some(h), me) == GoalActive {
      var c, source, now :| GoalLog.DrawsFreshTokens(g, c) && GoalOps.Commit(g, c, source, now) == Ok(h);
      GoalRuns.CommitParts(g, c, source, now);
      CommitMovesWait(g, c, source, now, GoalOps.Apply(g, c, now).value, h, me);
      WaitWasOver(g, h, me);
    }
  }

  lemma WaitWasOver(g: GoalModel.Goal, h: GoalModel.Goal, me: Identity)
    requires GoalModel.ValidParts(g) && GoalLog.WatchesInOrder(g.nodes, GoalLog.Entries(g.events)) && LetGo(g, me)
    requires WaitedBefore(g.nodes, h.nodes, me)
    ensures WaitPhase(Some(h), me) != GoalActive
  {
    var wait := g.nodes[me.node].wait.value;
    assert GoalModel.ValidNode(me.node, g.nodes[me.node], g.nodes.Keys);
    assert GoalLog.OnTrack(me.node, wait, GoalLog.Entries(g.events));
    if wait.watchId == me.watchId && wait.phase == GoalModel.Prepared {
      PreparedIsNotActivated(g, me.node, wait);
    }
  }

  // ---- Both together ------------------------------------------------------------------------------

  // The watch, its receipt and the goal agree.
  ghost predicate PairInv(p: Pair, me: Identity) {
    && GoalRuns.Inv(p.goal) && (HeldBack(p.watch) || ActivationLogged(p.goal, me))
    && p.receipt == (if p.watch.offered then Some(Receipt(me)) else None)
    && (p.watch.claim == Claimed <==> WaitPhase(Some(p.goal), me) == GoalActive)
    && (p.watch.claim == Released ==> LetGo(p.goal, me))
  }

  // Only one command makes a node wait for the watch.
  lemma OnlyActivationActivates(g: GoalModel.Goal, c: GoalOps.Command, now: Time, raw: GoalModel.Goal, me: Identity)
    requires GoalOps.Apply(g, c, now) == Ok(raw) && raw != g && GoalModel.ValidParts(g)
    requires WaitPhase(Some(g), me) != GoalActive && WaitPhase(Some(raw), me) == GoalActive
    ensures c.ActivateWait? && c.id == me.node && c.watchId == me.watchId
    ensures g.nodes[me.node].wait.Some? && g.nodes[me.node].wait.value.client == me.client && g.nodes[me.node].wait.value.thread == me.thread
  {
    forall id | id in g.nodes ensures GoalModel.ValidWait(g.nodes[id]) {
      assert GoalModel.ValidNode(id, g.nodes[id], g.nodes.Keys);
    }
    GoalLog.ApplyMovesWaits(g, c, now);
    NewWaitIsLogged(g, c, raw, GoalOps.EntryFor(c), me);
  }

  lemma NewWaitIsLogged(g: GoalModel.Goal, c: GoalOps.Command, h: GoalModel.Goal, e: GoalModel.Entry, me: Identity)
    requires GoalLog.WaitMoves(g, c, h, e) && forall id :: id in g.nodes ==> GoalModel.ValidWait(g.nodes[id])
    requires WaitPhase(Some(g), me) != GoalActive && WaitPhase(Some(h), me) == GoalActive
    ensures e == GoalModel.LogActivateWait(me.node, me.watchId)
    ensures me.node in g.nodes && g.nodes[me.node].wait.Some?
    ensures g.nodes[me.node].wait.value.client == me.client && g.nodes[me.node].wait.value.thread == me.thread
  {
  }

  // A permitted activation of the watch reads its receipt, its lock and the clock.
  lemma PermittedReads(p: Pair, me: Identity, c: GoalOps.Command, now: Time)
    requires GoalPermits.Permits(p.goal, c, now) && Reads(p, me, c)
    requires c.ActivateWait? && c.id == me.node && c.watchId == me.watchId
    requires p.receipt.Some? ==> p.receipt == Some(Receipt(me))
    ensures LockIsTaken(p.watch) && p.receipt == Some(Receipt(me)) && now <= me.deadline
  {
  }

  // The goal comes to wait for the watch only while the task holds its lock, its own receipt
  // exists, and the deadline in that receipt has not passed.
  lemma ActivationReads(cfg: Config, me: Identity, p: Pair, q: Pair, c: GoalOps.Command, source: string)
    requires PairInv(p, me) && GoalStep(cfg, me, p, q, c, source)
    requires WaitPhase(Some(p.goal), me) != GoalActive && WaitPhase(Some(q.goal), me) == GoalActive
    ensures LockIsTaken(p.watch) && p.receipt == Some(Receipt(me)) && q.clock <= me.deadline
    ensures p.watch.claim == Unclaimed
  {
    GoalRuns.CommitParts(p.goal, c, source, q.clock);
    var raw := GoalOps.Apply(p.goal, c, q.clock).value;
    SameNodesSamePhase(raw, q.goal, me);
    OnlyActivationActivates(p.goal, c, q.clock, raw, me);
    GoalPermits.PassesIff(p.goal, c, q.clock);
    PermittedReads(p, me, c, q.clock);
    if p.watch.claim == Released {
      assert GoalRuns.Commits(p.goal, q.goal);
      StaysLetGo(p.goal, q.goal, me);
    }
  }

  // The steps of the watch leave its claim alone, and only the offer leaves a receipt.
  lemma OnlyOwnClaims(cfg: Config, s: State, c: Choice)
    requires !c.Own? && !c.Release?
    ensures Next(cfg, s, c).claim == s.claim
    ensures Next(cfg, s, c).offered == (s.offered || (c.Offer? && s.pc == Some(Polling)))
  {
  }

  lemma WatchStepInv(cfg: Config, me: Identity, p: Pair, q: Pair, c: Choice, readable: bool)
    requires PairInv(p, me) && WatchStep(cfg, me, p, q, c, readable)
    ensures PairInv(q, me)
  {
    OnlyOwnClaims(cfg, p.watch, c);
    if c.Poll? && c.phase == GoalActive {
      ActiveWasLogged(p.goal, me);
    } else if HeldBack(p.watch) {
      StepHeldBack(cfg, p.watch, c);
    }
  }

  lemma ClaimingHeldBack(cfg: Config, s: State, c: Choice)
    requires cfg.owner == GoalOwner && (c.Own? || c.Release?)
    ensures Next(cfg, s, c) == s.(claim := Next(cfg, s, c).claim) && HeldBack(Next(cfg, s, c)) == HeldBack(s)
    ensures c.Release? ==> Next(cfg, s, c).claim == Released
    ensures c.Own? && s.claim == Unclaimed && s.offered && LockIsTaken(s) ==> Next(cfg, s, c).claim == Claimed
  {
  }

  lemma GoalStepInv(cfg: Config, me: Identity, p: Pair, q: Pair, c: GoalOps.Command, source: string)
    requires cfg.owner == GoalOwner && PairInv(p, me) && GoalStep(cfg, me, p, q, c, source)
    ensures PairInv(q, me)
  {
    assert GoalRuns.Commits(p.goal, q.goal);
    GoalRuns.CommitsKeeps(p.goal, q.goal);
    if ActivationLogged(p.goal, me) {
      LogOnlyGrows(p.goal, q.goal, me);
    }
    ClaimingHeldBack(cfg, p.watch, Own);
    ClaimingHeldBack(cfg, p.watch, Release);
    var was, now := WaitPhase(Some(p.goal), me) == GoalActive, WaitPhase(Some(q.goal), me) == GoalActive;
    if now && !was {
      ActivationReads(cfg, me, p, q, c, source);
    } else if was {
      ActiveWasLogged(p.goal, me);
    } else if p.watch.claim == Released {
      StaysLetGo(p.goal, q.goal, me);
    }
  }

  lemma PairStepInv(cfg: Config, me: Identity, p: Pair, q: Pair)
    requires cfg.owner == GoalOwner && PairInv(p, me) && PairStep(cfg, me, p, q)
    ensures PairInv(q, me)
  {
    if c, source :| GoalStep(cfg, me, p, q, c, source) {
      GoalStepInv(cfg, me, p, q, c, source);
    } else {
      var c, readable :| WatchStep(cfg, me, p, q, c, readable);
      WatchStepInv(cfg, me, p, q, c, readable);
    }
  }

  // In every run of a goal and a watch that belongs to it, the waiting program has been started
  // only if `activate-wait` for this very node and watch id was committed before, and what the
  // watch is told about its owner is what the goal's file says.
  lemma {:induction false} ProgramWaitsForActivation(cfg: Config, me: Identity, run: seq<Pair>, i: nat)
    requires IsPairRun(cfg, me, run) && i < |run|
    ensures PairInv(run[i], me)
    ensures run[i].watch.starts > 0 || run[i].watch.claim == Claimed ==> ActivationLogged(run[i].goal, me)
    ensures run[i].watch.claim == Claimed <==> IsWaiting(run[i].goal, me, GoalModel.Active)
  {
    if i > 0 {
      ProgramWaitsForActivation(cfg, me, run, i - 1);
      assert PairStep(cfg, me, run[i - 1], run[i - 1 + 1]);
      PairStepInv(cfg, me, run[i - 1], run[i]);
    }
    PhaseTells(run[i].goal, me);
    if WaitPhase(Some(run[i].goal), me) == GoalActive {
      ActiveWasLogged(run[i].goal, me);
    }
  }

  // In every such run, the goal comes to wait for the watch only at a moment when the task holds
  // its lock, has left its own receipt, and the deadline in it has not passed.
  lemma ActivationIsInTime(cfg: Config, me: Identity, run: seq<Pair>, i: nat)
    requires IsPairRun(cfg, me, run) && i + 1 < |run|
    requires !IsWaiting(run[i].goal, me, GoalModel.Active) && IsWaiting(run[i + 1].goal, me, GoalModel.Active)
    ensures LockIsTaken(run[i].watch) && run[i].watch.offered && run[i].receipt == Some(Receipt(me))
    ensures run[i + 1].clock <= me.deadline
    ensures run[i].watch.claim == Unclaimed && run[i + 1].watch.claim == Claimed
  {
    ProgramWaitsForActivation(cfg, me, run, i);
    ProgramWaitsForActivation(cfg, me, run, i + 1);
    PhaseTells(run[i].goal, me);
    PhaseTells(run[i + 1].goal, me);
    var p, q := run[i], run[i + 1];
    assert PairStep(cfg, me, p, q);
    if c, source :| GoalStep(cfg, me, p, q, c, source) {
      ActivationReads(cfg, me, p, q, c, source);
    }
  }

  function Activation(me: Identity): GoalOps.Command {
    GoalOps.ActivateWait(me.node, me.watchId, Some(Receipt(me)), true)
  }

  lemma ActivationIsPermitted(g: GoalModel.Goal, me: Identity, now: Time)
    requires g.status == GoalModel.GoalOpen && now <= me.deadline
    requires IsWaiting(g, me, GoalModel.Prepared) && UsesFiles(g.nodes[me.node].wait.value, me)
    ensures GoalPermits.Permits(g, Activation(me), now)
  {
    assert GoalPermits.ReceiptAnswers(g.nodes[me.node].wait.value, me.node, Some(Receipt(me)), now);
  }

  lemma ActivationCommits(g: GoalModel.Goal, me: Identity, source: string, now: Time) returns (h: GoalModel.Goal)
    requires GoalRuns.Inv(g) && g.status == GoalModel.GoalOpen && now <= me.deadline
    requires IsWaiting(g, me, GoalModel.Prepared) && UsesFiles(g.nodes[me.node].wait.value, me)
    ensures GoalOps.Commit(g, Activation(me), source, now) == Ok(h) && GoalRuns.Commits(g, h)
    ensures IsWaiting(h, me, GoalModel.Active)
  {
    ActivationIsPermitted(g, me, now);
    assert GoalValidity.Acceptable(g, Activation(me));
    GoalPermits.CommittedIff(g, Activation(me), source, now);
    h := GoalOps.Commit(g, Activation(me), source, now).value;
    assert GoalLog.DrawsFreshTokens(g, Activation(me));
    GoalRuns.CommitParts(g, Activation(me), source, now);
    ActivationMakesWait(g, me, now);
  }

  lemma ActivationMakesWait(g: GoalModel.Goal, me: Identity, now: Time)
    requires IsWaiting(g, me, GoalModel.Prepared)
    requires GoalOps.Apply(g, Activation(me), now).Ok?
    ensures IsWaiting(GoalOps.Apply(g, Activation(me), now).value, me, GoalModel.Active)
  {
  }

  // Conversely: once the wait is prepared in an open goal, the lock, the receipt and the time are
  // all that its activation takes.
  lemma ActivationSucceeds(cfg: Config, me: Identity, p: Pair, source: string, now: Time) returns (q: Pair)
    requires cfg.owner == GoalOwner && PairInv(p, me) && p.goal.status == GoalModel.GoalOpen
    requires IsWaiting(p.goal, me, GoalModel.Prepared) && UsesFiles(p.goal.nodes[me.node].wait.value, me)
    requires LockIsTaken(p.watch) && p.receipt == Some(Receipt(me)) && p.clock <= now <= me.deadline
    ensures q.clock == now && PairStep(cfg, me, p, q) && q.watch == p.watch.(claim := Claimed)
    ensures PairInv(q, me) && IsWaiting(q.goal, me, GoalModel.Active)
  {
    var h := ActivationCommits(p.goal, me, source, now);
    GoalRuns.CommitsKeeps(p.goal, h);
    q := Pair(h, Noticed(cfg, me, p, h), now, p.receipt);
    ActivationIsRead(p, me);
    assert GoalLog.DrawsFreshTokens(p.goal, Activation(me));
    assert GoalStep(cfg, me, p, q, Activation(me), source);
    GoalStepInv(cfg, me, p, q, Activation(me), source);
    ActivationIsNoticed(cfg, me, p, h);
  }

  lemma ActivationIsRead(p: Pair, me: Identity)
    requires LockIsTaken(p.watch) && p.receipt == Some(Receipt(me))
    ensures Reads(p, me, Activation(me))
  {
  }

  lemma ActivationIsNoticed(cfg: Config, me: Identity, p: Pair, h: GoalModel.Goal)
    requires cfg.owner == GoalOwner && GoalModel.ValidParts(p.goal) && GoalModel.ValidParts(h)
    requires IsWaiting(p.goal, me, GoalModel.Prepared) && IsWaiting(h, me, GoalModel.Active)
    ensures WaitPhase(Some(h), me) == GoalActive
    ensures Noticed(cfg, me, p, h) == p.watch.(claim := Noticed(cfg, me, p, h).claim)
  {
    PhaseTells(p.goal, me);
    PhaseTells(h, me);
    ClaimingHeldBack(cfg, p.watch, Own);
  }

  lemma SightLeadsOn(cfg: Config, s: State, expired: bool)
    requires s.pc == Some(Polling) && s.offered && !s.cancelled && s.claim == Claimed
    ensures Run(cfg, s, [Poll(GoalActive, expired), Go, Go, Spawn]).starts == s.starts + 1
  {
    var choices := [Poll(GoalActive, expired), Go, Go, Spawn];
    var s1 := Next(cfg, s, choices[0]);
    assert s1 == s.(pc := Some(WritePhase(Queued, WritePhase(Running, Spawning))));
    var s2 := Next(cfg, s1, Go);
    assert choices[1..] == [Go, Go, Spawn] && choices[1..][1..] == [Go, Spawn] && choices[1..][1..][1..] == [Spawn];
    assert Run(cfg, s2, [Go, Spawn]) == Run(cfg, Next(cfg, s2, Go), [Spawn]);
    assert [Spawn][1..] == [];
  }

  // The next poll that can read the goal sees it, in time or not, and the program starts.
  lemma ActivationIsSeen(cfg: Config, me: Identity, p: Pair, now: Time)
    requires PairInv(p, me) && IsWaiting(p.goal, me, GoalModel.Active)
    requires p.watch.pc == Some(Polling) && p.watch.offered && !p.watch.cancelled && p.clock <= now
    ensures var c := Poll(GoalActive, now >= me.deadline);
            && PairStep(cfg, me, p, p.(watch := Next(cfg, p.watch, c), clock := now))
            && Run(cfg, p.watch, [c, Go, Go, Spawn]).starts == p.watch.starts + 1
  {
    PhaseTells(p.goal, me);
    var c := Poll(GoalActive, now >= me.deadline);
    SightLeadsOn(cfg, p.watch, now >= me.deadline);
    assert WatchStep(cfg, me, p, p.(watch := Next(cfg, p.watch, c), clock := now), c, true);
  }
}
