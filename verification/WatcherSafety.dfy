// What no crash and no restart can break: the waiting program runs at most once, and, with
// two exactly known exceptions, at most one wake turn is ever accepted.
module WatcherSafety {
  import opened Base
  import opened Delivery
  import opened Watcher

  // ---- The waiting program runs at most once -----------------------------------------------

  predicate BeforeStart(phase: Phase) {
    phase == Activating || phase == Queued
  }

  predicate Late(phase: Phase) {
    phase == Notifying || phase == AwaitingAck || phase == Finalizing
  }

  // The task is on its way to starting the program.
  predicate Spawns(pc: Pc) {
    match pc
    case Spawning => true
    case WritePhase(_, next) => Spawns(next)
    case WriteLog(_, _, next) => Spawns(next)
    case WriteRecord(_, _, next) => Spawns(next)
    case _ => false
  }

  // Only on that way is an early phase written.
  predicate WritesForward(pc: Pc) {
    match pc
    case WritePhase(phase, next) => WritesForward(next) && !next.Polling? && (BeforeStart(phase) ==> Spawns(next) && !next.Spawning?)
    case WriteLog(_, to, next) => WritesForward(next) && !next.Polling? && !next.Spawning? && (to.Some? ==> !BeforeStart(to.value))
    case WriteRecord(_, to, next) => WritesForward(next) && !next.Polling? && !next.Spawning? && (to.Some? ==> !BeforeStart(to.value))
    case _ => true
  }

  predicate RunsOnce(s: State) {
    && s.starts <= 1
    && (BeforeStart(s.record.phase) ==> s.starts == 0)
    && (s.pc.Some? ==>
         && WritesForward(s.pc.value)
         && (Spawns(s.pc.value) || s.pc.value.Polling? ==> s.starts == 0)
         && (s.pc.value.Spawning? ==> !BeforeStart(s.record.phase)))
  }

  // Nothing but the phases after the program is written any more.
  predicate LateWrites(pc: Pc) {
    match pc
    case Polling => false
    case Spawning => false
    case Observing => false
    case WritePhase(phase, next) => Late(phase) && LateWrites(next)
    case WriteLog(_, to, next) => (to.Some? ==> Late(to.value)) && LateWrites(next)
    case WriteRecord(_, to, next) => (to.Some? ==> Late(to.value)) && LateWrites(next)
    case _ => true
  }

  // Whatever follows a result never leads back to the program.
  predicate Inert(pc: Pc) {
    !Spawns(pc) && WritesForward(pc) && LateWrites(pc)
  }

  lemma DeliveryIsInert(cfg: Config, result: Saved, failing: bool)
    ensures Inert(Undelivered(result, failing)) && Inert(Accepted(cfg, result, failing)) && Inert(AfterHelper(cfg, result, failing))
  {
    DeliveryEndIsInert(cfg, result, failing);
    WriteLogIsInert(result, None, Undelivered(result, failing));
    WriteLogIsInert(result, None, Accepted(cfg, result, failing));
    WriteLogIsInert(result, None, Delivering(result, failing));
  }

  lemma DeliveryEndIsInert(cfg: Config, result: Saved, failing: bool)
    ensures Inert(Undelivered(result, failing)) && !Undelivered(result, failing).Polling? && !Undelivered(result, failing).Spawning?
    ensures Inert(Accepted(cfg, result, failing)) && !Accepted(cfg, result, failing).Polling? && !Accepted(cfg, result, failing).Spawning?
  {
    WriteRecordIsInert(result, Some(Finalizing), Closing(result));
    WriteRecordIsInert(result, Some(AwaitingAck), AwaitingWake(result));
  }

  lemma WriteRecordIsInert(result: Saved, to: Option<Phase>, next: Pc)
    requires Inert(next) && !next.Polling? && !next.Spawning? && (to.Some? ==> Late(to.value))
    ensures Inert(WriteRecord(result, to, next))
  {
    assert Spawns(WriteRecord(result, to, next)) == Spawns(next);
    assert WritesForward(WriteRecord(result, to, next)) && LateWrites(WriteRecord(result, to, next));
  }

  lemma WriteLogIsInert(result: Saved, to: Option<Phase>, next: Pc)
    requires Inert(next) && !next.Polling? && !next.Spawning? && (to.Some? ==> Late(to.value))
    ensures Inert(WriteLog(result, to, next))
  {
    assert Spawns(WriteLog(result, to, next)) == Spawns(next);
    assert WritesForward(WriteLog(result, to, next)) && LateWrites(WriteLog(result, to, next));
  }

  lemma ConclusionIsInert(cfg: Config, s: State, event: Happening, durable: Option<(Notice, nat)>, notice: Notice, attempts: nat, current: bool)
    ensures Inert(Concluded(cfg, s, event, durable, notice, attempts, current))
  {
  }

  lemma ClosingIsInert(result: Saved)
    ensures Inert(WriteLog(result, Some(Finalizing), Closing(result)))
  {
  }

  lemma TryIsInert(cfg: Config, s: State, result: Saved, failing: bool, current: bool)
    ensures Inert(Tried(cfg, s, result, failing, current))
  {
    DeliveryIsInert(cfg, result, failing);
    DeliveryIsInert(cfg, result.(notice := Withdrawn), failing);
    DeliveryIsInert(cfg, result.(notice := NativePending, attempts := 0), failing);
  }

  lemma ResumptionRunsOnce(cfg: Config, s: State, current: bool)
    requires RunsOnce(s) && s.pc == Some(Locking)
    ensures RunsOnce(Goto(s, Resumed(cfg, s, current)))
  {
    if s.record.phase == Running || s.record.phase == Querying {
      assert Resumed(cfg, s, current) == Reconciled(cfg, s, current);
      if s.log.Some? {
        ConclusionIsInert(cfg, s, s.log.value.event, s.log.value.durable, s.log.value.notice, s.log.value.attempts, current);
      } else {
        ConclusionIsInert(cfg, s, Interrupted, None, Silent, 0, current);
      }
    } else if Late(s.record.phase) && s.record.result.Some? {
      var result := s.record.result.value;
      DeliveryIsInert(cfg, result, false);
      assert Inert(WriteLog(result.(notice := Unconfirmed), Some(Finalizing), Closing(result.(notice := Unconfirmed))));
    } else if s.record.phase == Queued {
      assert Spawns(WritePhase(Running, Spawning));
    }
  }

  lemma ProceedRunsOnce(cfg: Config, s: State)
    requires RunsOnce(s) && s.pc.Some?
    ensures RunsOnce(Proceed(cfg, s))
  {
    match s.pc.value {
      case WritePhase(phase, next) => assert Spawns(s.pc.value) == Spawns(next);
      case WriteLog(result, to, next) => assert Spawns(s.pc.value) == Spawns(next) == Spawns(WriteRecord(result, to, next));
      case WriteRecord(result, to, next) => assert Spawns(s.pc.value) == Spawns(next);
      case Ending(result) =>
        assert !Spawns(WritePhase(Notifying, Delivering(result.(notice := Pending, attempts := 0), true)));
      case _ =>
    }
  }

  lemma DeliveryRunsOnce(cfg: Config, s: State, c: Choice)
    requires RunsOnce(s) && s.pc.Some? && (c.Attempt? || c.Command? || c.Helper?)
    ensures RunsOnce(Next(cfg, s, c))
  {
    var pc := s.pc.value;
    match c {
      case Attempt(current) =>
        if pc.Delivering? {
          TryIsInert(cfg, s, pc.result, pc.failing, IsCurrent(cfg, s, current));
        }
      case Command(outcome) =>
        if pc.Launching? {
          DeliveryIsInert(cfg, pc.result.(notice := if outcome == CommandUnavailable then Unavailable else NotLaunched), pc.failing);
        }
      case Helper(exit, turn) =>
        if pc.Helping? {
          DeliveryIsInert(cfg, HelperResult(cfg, pc.result, exit), pc.failing);
        }
    }
  }

  lemma ProgramRunsOnce(cfg: Config, s: State, c: Choice)
    requires RunsOnce(s) && s.pc.Some? && (c.Poll? || c.Spawn?)
    ensures RunsOnce(Next(cfg, s, c))
  {
    var ended := Saved(ActivationEnded, Silent, 0, None);
    assert Inert(WriteLog(ended, Some(Finalizing), Ending(ended)));
    assert Spawns(WritePhase(Queued, WritePhase(Running, Spawning)));
    assert !Spawns(WritePhase(Querying, Observing)) && WritesForward(WritePhase(Querying, Observing));
  }

  lemma RaiseRunsOnce(cfg: Config, s: State, turn: bool)
    requires RunsOnce(s) && s.pc.Some?
    ensures RunsOnce(Next(cfg, s, Raise(turn)))
  {
    var pc := s.pc.value;
    if pc.Delivering? || pc.Launching? || pc.Helping? {
      var raised := pc.result.(notice := Raised);
      assert Inert(WriteLog(raised, None, Finishing(raised)));
    }
  }

  lemma StepRunsOnce(cfg: Config, s: State, c: Choice)
    requires RunsOnce(s)
    ensures RunsOnce(Next(cfg, s, c))
  {
    if s.pc.Some? {
      var pc := s.pc.value;
      match c {
        case Lock(held, current) =>
          if pc.Locking? && held {
            ResumptionRunsOnce(cfg, s, IsCurrent(cfg, s, current));
          }
        case Skip(event, current) => ConclusionIsInert(cfg, s, event, None, Silent, 0, IsCurrent(cfg, s, current));
        case End(event, current) => ConclusionIsInert(cfg, s, event, None, Silent, 0, IsCurrent(cfg, s, current));
        case Attempt(_) => DeliveryRunsOnce(cfg, s, c);
        case Command(_) => DeliveryRunsOnce(cfg, s, c);
        case Helper(_, _) => DeliveryRunsOnce(cfg, s, c);
        case Go => ProceedRunsOnce(cfg, s);
        case Poll(_, _) => ProgramRunsOnce(cfg, s, c);
        case Spawn => ProgramRunsOnce(cfg, s, c);
        case Raise(turn) => RaiseRunsOnce(cfg, s, turn);
        case Ack(current) =>
          if pc.AwaitingWake? {
            ClosingIsInert(AckResult(s, pc.result, IsCurrent(cfg, s, current)));
          }
        case _ =>
      }
    }
  }

  // Over every run, with crashes and restarts anywhere, the program is started at most once.
  lemma {:induction false} ProgramStartsAtMostOnce(cfg: Config, s: State, choices: seq<Choice>)
    requires RunsOnce(s)
    ensures Run(cfg, s, choices).starts <= 1 && RunsOnce(Run(cfg, s, choices))
    decreases |choices|
  {
    if choices != [] {
      StepRunsOnce(cfg, s, choices[0]);
      ProgramStartsAtMostOnce(cfg, Next(cfg, s, choices[0]), choices[1..]);
    }
  }

  lemma SubmittedProgramStartsAtMostOnce(cfg: Config, choices: seq<Choice>)
    ensures Run(cfg, Submitted(cfg), choices).starts <= 1
  {
    ProgramStartsAtMostOnce(cfg, Submitted(cfg), choices);
  }

  // ---- What the helper tells ----

  // Whatever happens on the wire, the machine allows the helper's exit together with the turn
  // that may have been started; the exit of an exchange without one allows no turn.
  lemma ExchangesArePossible(cfg: Config, x: Exchange, turn: bool)
    requires cfg.client == Codex
    ensures Possible(cfg, ExitCode(RunHelper(x).exit), turn) <==> (turn ==> TurnMayHaveStarted(x))
  {
    ExitTellsWhetherTurnMayHaveStarted(x);
  }

  // ---- At most one accepted wake ---------------------------------------------------------------

  function Attempts(r: Option<Saved>): nat {
    if r.Some? then r.value.attempts else 0
  }

  predicate IsNotice(r: Option<Saved>) {
    r.Some? && r.value.event == WatcherFailed
  }

  predicate IsResult(r: Option<Saved>) {
    r.Some? && r.value.event != WatcherFailed
  }

  // A notice after which a turn may be under way.
  predicate Latched(n: Notice) {
    n == Attempting || n == Unconfirmed || n == Delivered || n == Raised
  }

  // The daemon resumes delivery from a saved outcome that leaves open whether a turn started.
  predicate Replays(s: State, c: Choice) {
    && s.pc == Some(Locking) && c.Lock? && c.held && s.record.phase == Notifying
    && s.record.result.Some? && (s.record.result.value.notice == Unconfirmed || s.record.result.value.notice == Raised)
  }

  // The watcher fails again although a notice of an earlier failure was already attempted.
  predicate Relapses(s: State, c: Choice) {
    && c.Raise? && s.pc.Some? && CanRaise(s.pc.value)
    && !((s.pc.value.Delivering? || s.pc.value.Launching? || s.pc.value.Helping?) && s.pc.value.failing)
    && IsNotice(s.record.result) && Attempts(s.record.result) > 0
  }

  predicate Clean(s: State, c: Choice) {
    !Replays(s, c) && !Relapses(s, c)
  }

  predicate CleanRun(cfg: Config, s: State, choices: seq<Choice>)
    decreases |choices|
  {
    choices == [] || (Clean(s, choices[0]) && CleanRun(cfg, Next(cfg, s, choices[0]), choices[1..]))
  }

  // The part of the state that what follows depends on: where the task is does not matter.
  datatype Facts = Facts(record: Record, log: Option<Saved>, launches: nat, accepted: nat)

  function FactsOf(s: State): Facts {
    Facts(s.record, s.log, s.launches, s.accepted)
  }

  // A saved result accounts for every launch and shows a turn that may be under way.
  predicate Accounts(cfg: Config, s: Facts, r: Saved) {
    && s.launches <= r.attempts <= cfg.maxAttempts
    && (s.accepted > 0 ==> Latched(r.notice) && r.attempts > 0)
    && (r.notice == Silent || r.notice == Pending ==> r.attempts == 0)
    && (r.notice == Attempting || IsDelivered(r.notice) ==> r.attempts > 0)
    && (r.event != WatcherFailed ==> r.durable.None? && r.notice != Raised)
  }

  // The log agrees with a saved result: it holds the result, no further behind than the
  // registry, and a failure refers to it exactly when it is not itself a failure.
  predicate LogAgrees(log: Option<Saved>, r: Saved) {
    && (r.event != WatcherFailed ==> IsResult(log) && log.value.attempts >= r.attempts)
    && (r.event == WatcherFailed ==> (r.durable.Some? <==> IsResult(log)))
    && (r.event == WatcherFailed && r.durable.Some? ==> log.value.attempts == 0)
  }

  // The state once a result has been written to both places.
  function Wrote(s: Facts, r: Saved, to: Option<Phase>): Facts {
    s.(log := LogAfter(s.log, r), record := s.record.(result := Some(r), phase := PhaseAfter(s.record, to)))
  }

  // The log shows no attempt to deliver a result of the program.
  predicate Unattempted(log: Option<Saved>) {
    !(IsResult(log) && log.value.attempts > 0)
  }

  // Without an owner nothing but cancellation withdraws a result before its first attempt is on
  // record, so a log that is ahead of the record means that delivery is under way.
  predicate Ordered(cfg: Config, s: Facts) {
    cfg.owner == NoOwner && cfg.maxAttempts > 0 && s.record.life == Live
    && IsResult(s.record.result) && s.record.result.value.attempts == 0 && !Unattempted(s.log)
    ==> s.record.phase == Notifying
  }

  // What each place in the task may rely on.
  predicate Fits(cfg: Config, s: Facts, pc: Pc)
    decreases pc
  {
    match pc
    case Locking => true
    case Polling => s.record.result.None? && !Late(s.record.phase)
    case Spawning => s.record.result.None? && !Late(s.record.phase)
    case Observing => s.record.result.None? && !Late(s.record.phase)
    case WritePhase(phase, next) =>
      (Late(phase) || s.record.result.None?) && (Late(s.record.phase) ==> Late(phase))
      && Ordered(cfg, s.(record := s.record.(phase := phase)))
      && Fits(cfg, s.(record := s.record.(phase := phase)), next)
    case WriteLog(r, to, next) =>
      && (!Late(s.record.phase) ==> r.notice == Silent || r.notice == Pending)
      && Accounts(cfg, s, r) && Late(PhaseAfter(s.record, to)) && LogAgrees(LogAfter(s.log, r), r)
      && (s.record.result.Some? ==> LogAgrees(LogAfter(s.log, r), s.record.result.value))
      && Ordered(cfg, s.(log := LogAfter(s.log, r))) && Ordered(cfg, Wrote(s, r, to))
      && Fits(cfg, Wrote(s, r, to), next)
    case WriteRecord(r, to, next) =>
      && Accounts(cfg, s, r) && Late(PhaseAfter(s.record, to)) && LogAgrees(s.log, r)
      && Ordered(cfg, s.(record := s.record.(result := Some(r), phase := PhaseAfter(s.record, to))))
      && Fits(cfg, s.(record := s.record.(result := Some(r), phase := PhaseAfter(s.record, to))), next)
    case Delivering(r, failing) =>
      && s.accepted == 0 && Accounts(cfg, s, r) && s.record.phase == Notifying
      && (if failing && s.record.result != Some(r)
          then s.launches == 0 && r.attempts == 0 && r.event == WatcherFailed && (r.durable.Some? <==> IsResult(s.log))
               && (r.durable.Some? ==> s.log.value.attempts == 0)
          else s.record.result == Some(r))
      && (failing ==> r.event == WatcherFailed)
    case Launching(r, failing) =>
      s.record.result == Some(r) && r.notice == Attempting && s.launches < r.attempts && s.accepted == 0
      && s.record.phase == Notifying && (failing ==> r.event == WatcherFailed)
    case Helping(r, failing) =>
      s.record.result == Some(r) && r.notice == Attempting && s.accepted == 0
      && s.record.phase == Notifying && (failing ==> r.event == WatcherFailed)
    case AwaitingWake(r) => s.record.result == Some(r)
    case Closing(r) => s.record.result == Some(r)
    case Raising(_) => IsNotice(s.record.result) ==> s.launches == 0 && s.accepted == 0
    case Ending(r) =>
      r.event == WatcherFailed && (r.notice == Silent || r.notice == Pending) && (r.durable.Some? ==> r.durable.value.1 == 0)
      ==> s.launches == 0 && s.accepted == 0 && r.attempts == 0 && (r.durable.Some? <==> IsResult(s.log)) && (r.durable.Some? ==> s.log.value.attempts == 0)
    case Finishing(_) => true
  }

  predicate Sound(cfg: Config, s: State) {
    && s.accepted <= 1 && s.launches <= cfg.maxAttempts
    && (s.cancelled ==> s.record.life != Live) && Ordered(cfg, FactsOf(s))
    && (s.record.life != Done ==>
         && (s.record.result.None? ==> s.launches == 0 && s.accepted == 0)
         && (s.record.result.Some? ==>
              Accounts(cfg, FactsOf(s), s.record.result.value) && LogAgrees(s.log, s.record.result.value) && Late(s.record.phase))
         && (s.log.Some? ==> s.log.value.durable.None? && (!Late(s.record.phase) ==> s.log.value.attempts == 0 && (s.log.value.notice == Silent || s.log.value.notice == Pending)))
         && (s.pc.Some? ==> Fits(cfg, FactsOf(s), s.pc.value)))
    && (s.record.life == Done ==> s.pc.None?)
  }

  // Saving the result ends its delivery in order.
  predicate Closable(cfg: Config, s: Facts, r: Saved) {
    Ordered(cfg, s.(record := s.record.(result := Some(r), phase := Finalizing)))
  }

  lemma UndeliveredFits(cfg: Config, s: Facts, r: Saved, failing: bool)
    requires Accounts(cfg, s, r) && LogAgrees(s.log, r) && Closable(cfg, s, r)
    ensures Fits(cfg, s, Undelivered(r, failing)) && Fits(cfg, s, Accepted(cfg, r, failing))
  {
  }

  lemma TriedFits(cfg: Config, s: State, r: Saved, failing: bool, current: bool)
    requires cfg.client == Codex && Sound(cfg, s) && s.record.life != Done && Fits(cfg, FactsOf(s), Delivering(r, failing))
    requires cfg.owner == NoOwner ==> current
    ensures Fits(cfg, FactsOf(s), Tried(cfg, s, r, failing, current))
  {
    if r.attempts >= cfg.maxAttempts {
      StoppedFits(cfg, s, r, r, failing);
    } else if s.cancelled || !current {
      StoppedFits(cfg, s, r, r.(notice := Withdrawn), failing);
    } else {
      RetriedFits(cfg, s, r, failing);
    }
  }

  lemma RetriedFits(cfg: Config, s: State, r: Saved, failing: bool)
    requires Sound(cfg, s) && s.record.life != Done && Fits(cfg, FactsOf(s), Delivering(r, failing)) && r.attempts < cfg.maxAttempts
    ensures var attempt := r.(notice := Attempting, attempts := r.attempts + 1);
            Fits(cfg, FactsOf(s), WriteLog(attempt, None, Launching(attempt, failing)))
  {
    AttemptFits(cfg, FactsOf(s), r.(notice := Attempting, attempts := r.attempts + 1), failing);
  }

  lemma StoppedFits(cfg: Config, s: State, r: Saved, last: Saved, failing: bool)
    requires Sound(cfg, s) && s.record.life != Done && Fits(cfg, FactsOf(s), Delivering(r, failing))
    requires last == r || last == r.(notice := Withdrawn)
    requires r.attempts >= cfg.maxAttempts || s.cancelled || cfg.owner != NoOwner
    ensures Fits(cfg, FactsOf(s), Undelivered(last, failing))
  {
    if !failing {
      UndeliveredFits(cfg, FactsOf(s), last, failing);
    }
  }

  lemma AttemptFits(cfg: Config, s: Facts, r: Saved, failing: bool)
    requires Accounts(cfg, s, r) && s.record.phase == Notifying && s.accepted == 0 && s.launches < r.attempts && r.attempts > 0
    requires s.record.result.Some? ==> LogAgrees(LogAfter(s.log, r), s.record.result.value)
    requires r.notice == Attempting && LogAgrees(LogAfter(s.log, r), r) && (failing ==> r.event == WatcherFailed)
    ensures Fits(cfg, s, WriteLog(r, None, Launching(r, failing)))
  {
  }

  lemma WrittenFits(cfg: Config, s: Facts, r: Saved, failing: bool)
    requires Accounts(cfg, s, r) && s.record.phase == Notifying && LogAgrees(LogAfter(s.log, r), r)
    requires s.record.result.Some? ==> LogAgrees(LogAfter(s.log, r), s.record.result.value)
    requires Closable(cfg, Wrote(s, r, None), r)
    ensures Fits(cfg, s, WriteLog(r, None, Undelivered(r, failing)))
    ensures Fits(cfg, s, WriteLog(r, None, Accepted(cfg, r, failing)))
    ensures Fits(cfg, s, WriteLog(r, None, Finishing(r)))
  {
    UndeliveredFits(cfg, Wrote(s, r, None), r, failing);
  }

  lemma HelperFits(cfg: Config, s: State, r: Saved, failing: bool, exit: Exit, turn: bool)
    requires cfg.client == Codex && Sound(cfg, s) && s.record.life != Done && Fits(cfg, FactsOf(s), Helping(r, failing))
    requires Possible(cfg, exit, turn)
    ensures Fits(cfg, FactsOf(s).(accepted := s.accepted + Count(turn)), AfterHelper(cfg, HelperResult(cfg, r, exit), failing))
  {
    var t := FactsOf(s).(accepted := s.accepted + Count(turn));
    var result := HelperResult(cfg, r, exit);
    WrittenFits(cfg, t, result, failing);
    if result.notice == Retrying {
      assert !turn;
      assert Fits(cfg, Wrote(t, result, None), Delivering(result, failing));
    }
  }

  // The first result a watch saves, before any launch.
  lemma FirstResultFits(cfg: Config, f: Facts, r: Saved)
    requires f.record.result.None? && f.launches == 0 && f.accepted == 0
    requires r.attempts == 0 && r.durable.None? && (r.notice == Silent || r.notice == Pending)
    requires r.event == WatcherFailed ==> !IsResult(f.log)
    ensures r.notice == Pending ==> Fits(cfg, f, WriteLog(r, Some(Notifying), Delivering(r, false)))
    ensures Fits(cfg, f, WriteLog(r, Some(Finalizing), Closing(r)))
  {
  }

  lemma ConcludedFits(cfg: Config, s: State, event: Happening, notice: Notice, current: bool)
    requires s.record.result.None? && s.launches == 0 && s.accepted == 0
    requires event == WatcherFailed ==> !IsResult(s.log)
    requires notice == Silent || notice == Pending
    ensures Fits(cfg, FactsOf(s), Concluded(cfg, s, event, None, notice, 0, current))
  {
    var happened := if s.cancelled || !current then Cancelled else event;
    FirstResultFits(cfg, FactsOf(s), Saved(happened, Pending, 0, None));
    FirstResultFits(cfg, FactsOf(s), Saved(happened, notice, 0, None));
  }

  lemma ResumedLateFits(cfg: Config, s: State, r: Saved)
    requires cfg.client == Codex && Sound(cfg, s) && s.record.life != Done && s.record.result == Some(r)
    requires s.record.phase == Notifying && (r.notice == Unconfirmed || r.notice == Raised) ==> s.accepted == 0
    ensures Fits(cfg, FactsOf(s), ResumedLate(cfg, s.record.phase, r))
  {
    if IsDelivered(r.notice) {
      UndeliveredFits(cfg, FactsOf(s), r, false);
    }
  }

  lemma ResumedFits(cfg: Config, s: State, current: bool)
    requires cfg.client == Codex && Sound(cfg, s) && s.record.life != Done && s.pc == Some(Locking)
    requires Replays(s, Lock(true, current)) ==> s.accepted == 0
    ensures Fits(cfg, FactsOf(s), Resumed(cfg, s, current))
  {
    if Late(s.record.phase) {
      if s.record.result.Some? {
        ResumedLateFits(cfg, s, s.record.result.value);
      }
    } else if s.log.Some? {
      ConcludedFits(cfg, s, s.log.value.event, s.log.value.notice, current);
    } else {
      ConcludedFits(cfg, s, Interrupted, Silent, current);
    }
  }

  lemma WriteSound(cfg: Config, s: State)
    requires Sound(cfg, s) && s.pc.Some? && (s.pc.value.WritePhase? || s.pc.value.WriteLog? || s.pc.value.WriteRecord?)
    ensures Sound(cfg, Proceed(cfg, s))
  {
  }

  lemma FailureSound(cfg: Config, s: State)
    requires Sound(cfg, s) && (s.pc.Some? && (s.pc.value.Raising? || s.pc.value.Closing?))
    ensures Sound(cfg, Proceed(cfg, s))
  {
  }

  lemma EndingSound(cfg: Config, s: State)
    requires Sound(cfg, s) && s.pc.Some? && (s.pc.value.Ending? || s.pc.value.Finishing?)
    ensures Sound(cfg, Proceed(cfg, s))
  {
  }

  lemma ThrewSound(cfg: Config, s: State, turn: bool)
    requires cfg.client == Codex && Sound(cfg, s) && s.pc.Some? && CanRaise(s.pc.value)
    requires Relapses(s, Raise(turn)) ==> s.launches == 0 && Threw(s, turn).accepted == 0
    ensures Sound(cfg, Threw(s, turn))
  {
    var pc := s.pc.value;
    if (pc.Delivering? || pc.Launching? || pc.Helping?) && pc.failing {
      NoticeThrewSound(cfg, s, turn);
    } else if pc.Helping? {
      TurnCounted(cfg, s, turn);
    }
  }

  lemma NoticeThrewSound(cfg: Config, s: State, turn: bool)
    requires Sound(cfg, s) && s.pc.Some?
    requires (s.pc.value.Delivering? || s.pc.value.Launching? || s.pc.value.Helping?) && s.pc.value.failing
    ensures Sound(cfg, Threw(s, turn))
  {
    var pc := s.pc.value;
    WrittenFits(cfg, FactsOf(s).(accepted := s.accepted + Count(turn && pc.Helping?)), pc.result.(notice := Raised), true);
  }

  // Steps that only move the task, or only observe the world.
  lemma MoveSound(cfg: Config, s: State, c: Choice)
    requires Sound(cfg, s) && (c.Crash? || c.Drop? || c.Restart? || c.Spawn? || c.Poll? || c.Offer? || c.Own? || c.Release?)
    ensures Sound(cfg, Next(cfg, s, c))
  {
    if c.Poll? {
      PollSound(cfg, s, c.phase, c.expired);
    }
  }

  lemma PollSound(cfg: Config, s: State, phase: GoalPhase, expired: bool)
    requires Sound(cfg, s)
    ensures Sound(cfg, Next(cfg, s, Poll(phase, expired)))
  {
  }

  lemma AckSound(cfg: Config, s: State, current: bool)
    requires cfg.client == Codex && Sound(cfg, s) && s.pc.Some? && s.pc.value.AwaitingWake?
    ensures Sound(cfg, Next(cfg, s, Ack(current)))
  {
    var result := AckResult(s, s.pc.value.result, IsCurrent(cfg, s, current));
    assert Fits(cfg, FactsOf(s), WriteLog(result, Some(Finalizing), Closing(result)));
  }

  lemma GotoSound(cfg: Config, s: State, pc: Pc)
    requires Sound(cfg, s) && s.record.life != Done && Fits(cfg, FactsOf(s), pc)
    ensures Sound(cfg, Goto(s, pc))
  {
  }

  lemma CommandSound(cfg: Config, s: State, outcome: Command)
    requires Sound(cfg, s) && s.pc.Some? && s.pc.value.Launching?
    ensures Sound(cfg, Next(cfg, s, Choice.Command(outcome)))
  {
    var pc := s.pc.value;
    if outcome == CommandReady {
      LaunchSound(cfg, s);
    } else {
      var r := pc.result.(notice := if outcome == CommandUnavailable then Unavailable else NotLaunched);
      NotLaunchedFits(cfg, s, r);
      GotoSound(cfg, s, WriteLog(r, None, Undelivered(r, pc.failing)));
    }
  }

  lemma NotLaunchedFits(cfg: Config, s: State, r: Saved)
    requires Sound(cfg, s) && s.pc.Some? && s.pc.value.Launching?
    requires r == s.pc.value.result.(notice := Unavailable) || r == s.pc.value.result.(notice := NotLaunched)
    ensures s.record.life != Done && Fits(cfg, FactsOf(s), WriteLog(r, None, Undelivered(r, s.pc.value.failing)))
  {
    WrittenFits(cfg, FactsOf(s), r, s.pc.value.failing);
  }

  lemma LaunchSound(cfg: Config, s: State)
    requires Sound(cfg, s) && s.pc.Some? && s.pc.value.Launching?
    ensures Sound(cfg, Goto(s.(launches := s.launches + 1), Helping(s.pc.value.result, s.pc.value.failing)))
  {
  }

  lemma HelperSound(cfg: Config, s: State, exit: Exit, turn: bool)
    requires cfg.client == Codex && Sound(cfg, s) && s.pc.Some? && s.pc.value.Helping? && Possible(cfg, exit, turn)
    ensures Sound(cfg, Next(cfg, s, Helper(exit, turn)))
  {
    var pc := s.pc.value;
    var t := s.(accepted := s.accepted + Count(turn), pc := None);
    HelperFits(cfg, s, pc.result, pc.failing, exit, turn);
    HelperStep(cfg, s, exit, turn);
    TurnCounted(cfg, s, turn);
    GotoSound(cfg, t, AfterHelper(cfg, HelperResult(cfg, pc.result, exit), pc.failing));
  }

  lemma HelperStep(cfg: Config, s: State, exit: Exit, turn: bool)
    requires s.pc.Some? && s.pc.value.Helping? && Possible(cfg, exit, turn)
    ensures Next(cfg, s, Helper(exit, turn)) ==
            Goto(s.(accepted := s.accepted + Count(turn)),
                 AfterHelper(cfg, HelperResult(cfg, s.pc.value.result, exit), s.pc.value.failing))
  {
  }

  // The attempt on record covers the turn its helper may have started.
  lemma TurnCounted(cfg: Config, s: State, turn: bool)
    requires Sound(cfg, s) && s.pc.Some? && s.pc.value.Helping?
    ensures Sound(cfg, s.(accepted := s.accepted + Count(turn), pc := None)) && s.record.life != Done
  {
  }

  // The steps that take the watch up or end its program.
  lemma ProgramSound(cfg: Config, s: State, c: Choice)
    requires cfg.client == Codex && Sound(cfg, s) && s.pc.Some? && (c.Lock? || c.Skip? || c.End?)
    requires Replays(s, c) ==> s.accepted == 0
    ensures Sound(cfg, Next(cfg, s, c))
  {
    var pc := s.pc.value;
    var current := IsCurrent(cfg, s, c.current);
    if c.Lock? && pc.Locking? {
      if c.held {
        ResumedFits(cfg, s, current);
      }
      GotoSound(cfg, s, if c.held then Resumed(cfg, s, current) else Ending(Saved(AlreadyWatching, Silent, 0, None)));
    } else if (c.Skip? && pc.Spawning?) || (c.End? && pc.Observing?) {
      if c.event != WatcherFailed {
        ConcludedFits(cfg, s, c.event, Silent, current);
        GotoSound(cfg, s, Concluded(cfg, s, c.event, None, Silent, 0, current));
      }
    }
  }

  // A replay does no harm before a turn was accepted, a relapse none before a launch.
  predicate Allowed(s: State, c: Choice) {
    && (Replays(s, c) ==> s.accepted == 0)
    && (Relapses(s, c) ==> s.launches == 0 && Threw(s, c.turn).accepted == 0)
  }

  // Every other step keeps the account straight.
  lemma StepSound(cfg: Config, s: State, c: Choice)
    requires cfg.client == Codex && Sound(cfg, s) && Allowed(s, c)
    ensures Sound(cfg, Next(cfg, s, c))
  {
    if c.Own? || c.Release? || c.Crash? || c.Drop? || c.Restart? || c.Spawn? || c.Poll? || c.Offer? {
      MoveSound(cfg, s, c);
    } else if s.pc.None? {
      assert Next(cfg, s, c) == s;
    } else {
      var pc := s.pc.value;
      match c {
        case Go =>
          if pc.WritePhase? || pc.WriteLog? || pc.WriteRecord? {
            WriteSound(cfg, s);
          } else if pc.Raising? || pc.Closing? {
            FailureSound(cfg, s);
          } else if pc.Ending? || pc.Finishing? {
            EndingSound(cfg, s);
          }
        case Raise(turn) =>
          if CanRaise(pc) {
            ThrewSound(cfg, s, turn);
          }
        case Lock(_, _) => ProgramSound(cfg, s, c);
        case Skip(_, _) => ProgramSound(cfg, s, c);
        case End(_, _) => ProgramSound(cfg, s, c);
        case Attempt(current) =>
          if pc.Delivering? {
            TriedFits(cfg, s, pc.result, pc.failing, IsCurrent(cfg, s, current));
            GotoSound(cfg, s, Tried(cfg, s, pc.result, pc.failing, IsCurrent(cfg, s, current)));
          }
        case Command(outcome) =>
          if pc.Launching? {
            CommandSound(cfg, s, outcome);
          }
        case Helper(exit, turn) =>
          if pc.Helping? && Possible(cfg, exit, turn) {
            HelperSound(cfg, s, exit, turn);
          }
        case Ack(current) =>
          if pc.AwaitingWake? {
            AckSound(cfg, s, current);
          }
        case _ =>
      }
    }
  }

  // ---- Three accounts over whole runs ------------------------------------------------------------

  // The machine never looks at what the world has seen, so the account can be kept of launches
  // alone, of turns alone, or of neither.
  function Uncounted(s: State, launches: bool, turns: bool): State {
    s.(launches := if launches then s.launches else 0, accepted := if turns then s.accepted else 0)
  }

  // The step from a state with other counters.
  lemma NextCounts(cfg: Config, s: State, t: State, c: Choice)
    requires t == s.(launches := t.launches, accepted := t.accepted)
    ensures var u, v := Next(cfg, s, c), Next(cfg, t, c);
            && v == u.(launches := v.launches, accepted := v.accepted)
            && u.launches - s.launches == v.launches - t.launches
            && u.accepted - s.accepted == v.accepted - t.accepted
  {
    if c.Go? && s.pc.Some? {
      ProceedCounts(cfg, s, t);
    } else if c.Raise? || c.Helper? {
      TurnCounts(cfg, s, t, c);
    } else if c.Attempt? || c.Command? {
      DeliveryCounts(cfg, s, t, c);
    }
  }

  lemma ProceedCounts(cfg: Config, s: State, t: State)
    requires t == s.(launches := t.launches, accepted := t.accepted) && s.pc.Some?
    ensures Proceed(cfg, t) == Proceed(cfg, s).(launches := t.launches, accepted := t.accepted)
    ensures Proceed(cfg, s).launches == s.launches && Proceed(cfg, s).accepted == s.accepted
  {
  }

  lemma TurnCounts(cfg: Config, s: State, t: State, c: Choice)
    requires t == s.(launches := t.launches, accepted := t.accepted) && (c.Raise? || c.Helper?)
    ensures var u, v := Next(cfg, s, c), Next(cfg, t, c);
            && v == u.(launches := v.launches, accepted := v.accepted)
            && u.launches == s.launches && v.launches == t.launches
            && u.accepted - s.accepted == v.accepted - t.accepted
  {
  }

  lemma DeliveryCounts(cfg: Config, s: State, t: State, c: Choice)
    requires t == s.(launches := t.launches, accepted := t.accepted) && (c.Attempt? || c.Command?)
    ensures var u, v := Next(cfg, s, c), Next(cfg, t, c);
            && v == u.(launches := v.launches, accepted := v.accepted)
            && u.launches - s.launches == v.launches - t.launches
            && u.accepted - s.accepted == v.accepted - t.accepted
  {
  }

  lemma {:induction false} FitsUncounted(cfg: Config, f: Facts, launches: nat, accepted: nat, pc: Pc)
    requires Fits(cfg, f, pc) && (launches == f.launches || launches == 0) && (accepted == f.accepted || accepted == 0)
    ensures Fits(cfg, f.(launches := launches, accepted := accepted), pc)
    decreases pc
  {
    var g := f.(launches := launches, accepted := accepted);
    match pc {
      case WritePhase(phase, next) =>
        FitsUncounted(cfg, f.(record := f.record.(phase := phase)), launches, accepted, next);
      case WriteLog(r, to, next) =>
        FitsUncounted(cfg, Wrote(f, r, to), launches, accepted, next);
        assert Wrote(f, r, to).(launches := launches, accepted := accepted) == Wrote(g, r, to);
      case WriteRecord(r, to, next) =>
        var h := f.(record := f.record.(result := Some(r), phase := PhaseAfter(f.record, to)));
        FitsUncounted(cfg, h, launches, accepted, next);
        assert h.(launches := launches, accepted := accepted) == g.(record := h.record);
      case _ =>
    }
  }

  lemma SoundUncounted(cfg: Config, s: State, launches: bool, turns: bool)
    requires Sound(cfg, s)
    ensures Sound(cfg, Uncounted(s, launches, turns))
  {
    if s.record.life != Done && s.pc.Some? {
      FitsUncounted(cfg, FactsOf(s), if launches then s.launches else 0, if turns then s.accepted else 0, s.pc.value);
    }
  }

  // The same choice, but that it reports a turn or does not.
  function WithTurn(c: Choice, turn: bool): Choice {
    match c
    case Crash(_) => Crash(turn)
    case Raise(_) => Raise(turn)
    case Helper(exit, _) => Helper(exit, turn)
    case _ => c
  }

  lemma TurnOnlyCounts(cfg: Config, s: State, c: Choice)
    ensures var u, v := Next(cfg, s, c), Next(cfg, s, WithTurn(c, false));
            (c.Helper? ==> Possible(cfg, c.exit, c.turn)) ==>
            u == v.(accepted := u.accepted)
  {
  }

  // A step that the account allows keeps it.
  lemma StepKeepsAccount(cfg: Config, s: State, c: Choice, launches: bool, turns: bool)
    requires cfg.client == Codex && Sound(cfg, Uncounted(s, launches, turns)) && Allowed(Uncounted(s, launches, turns), c)
    ensures Sound(cfg, Uncounted(Next(cfg, s, c), launches, turns))
  {
    var t := Uncounted(s, launches, turns);
    StepSound(cfg, t, c);
    NextCounts(cfg, s, t, c);
    SoundUncounted(cfg, Next(cfg, t, c), launches, turns);
    assert Uncounted(Next(cfg, t, c), launches, turns) == Uncounted(Next(cfg, s, c), launches, turns);
  }

  // Where turns are not counted, it makes no difference whether one was accepted.
  lemma StepKeepsShape(cfg: Config, s: State, c: Choice, launches: bool)
    requires cfg.client == Codex && Sound(cfg, Uncounted(s, launches, false))
    requires launches ==> !Relapses(s, c)
    ensures Sound(cfg, Uncounted(Next(cfg, s, c), launches, false))
  {
    if c.Helper? && !Possible(cfg, c.exit, c.turn) {
      assert Next(cfg, s, c) == s;
    } else {
      StepKeepsAccount(cfg, s, WithTurn(c, false), launches, false);
      TurnOnlyCounts(cfg, s, c);
    }
  }

  // What holds of every reachable state, whatever was replayed: everything but the counters.
  lemma {:induction false} RunShaped(cfg: Config, s: State, choices: seq<Choice>)
    requires cfg.client == Codex && Sound(cfg, Uncounted(s, false, false))
    ensures Sound(cfg, Uncounted(Run(cfg, s, choices), false, false))
    decreases |choices|
  {
    if choices != [] {
      StepKeepsShape(cfg, s, choices[0], false);
      RunShaped(cfg, Next(cfg, s, choices[0]), choices[1..]);
    }
  }

  // ---- The launch limit ----------------------------------------------------------------------------

  predicate NeverRelapses(cfg: Config, s: State, choices: seq<Choice>)
    decreases |choices|
  {
    choices == [] || (!Relapses(s, choices[0]) && NeverRelapses(cfg, Next(cfg, s, choices[0]), choices[1..]))
  }

  lemma {:induction false} RunKeepsLaunches(cfg: Config, s: State, choices: seq<Choice>)
    requires cfg.client == Codex && Sound(cfg, Uncounted(s, true, false)) && NeverRelapses(cfg, s, choices)
    ensures Sound(cfg, Uncounted(Run(cfg, s, choices), true, false))
    decreases |choices|
  {
    if choices != [] {
      StepKeepsShape(cfg, s, choices[0], true);
      RunKeepsLaunches(cfg, Next(cfg, s, choices[0]), choices[1..]);
    }
  }

  // The helper is launched no more often than the attempt limit allows, on every run in which
  // no announced failure fails again; replays keep the limit.
  lemma LaunchesWithinLimit(cfg: Config, choices: seq<Choice>)
    requires cfg.client == Codex && NeverRelapses(cfg, Submitted(cfg), choices)
    ensures Run(cfg, Submitted(cfg), choices).launches <= cfg.maxAttempts
  {
    RunKeepsLaunches(cfg, Submitted(cfg), choices);
  }

  // ---- One turn ------------------------------------------------------------------------------------

  // No replay and no relapse from the first accepted turn on.
  predicate CleanAfterTurn(cfg: Config, s: State, choices: seq<Choice>)
    decreases |choices|
  {
    choices == []
    || ((Next(cfg, s, choices[0]).accepted > 0 ==> Clean(s, choices[0])) && CleanAfterTurn(cfg, Next(cfg, s, choices[0]), choices[1..]))
  }

  lemma {:induction false} RunKeepsTurns(cfg: Config, s: State, choices: seq<Choice>)
    requires cfg.client == Codex && Sound(cfg, Uncounted(s, false, true)) && CleanAfterTurn(cfg, s, choices)
    ensures Sound(cfg, Uncounted(Run(cfg, s, choices), false, true))
    decreases |choices|
  {
    if choices != [] {
      StepKeepsAccount(cfg, s, choices[0], false, true);
      RunKeepsTurns(cfg, Next(cfg, s, choices[0]), choices[1..]);
    }
  }

  // At most one wake turn is accepted on every run from submission without a replay or a
  // relapse after it.
  lemma OneTurnPerWatch(cfg: Config, choices: seq<Choice>)
    requires cfg.client == Codex && CleanAfterTurn(cfg, Submitted(cfg), choices)
    ensures Run(cfg, Submitted(cfg), choices).accepted <= 1
  {
    RunKeepsTurns(cfg, Submitted(cfg), choices);
  }

  lemma TurnEndsLaunches(cfg: Config, s: State, c: Choice)
    requires Sound(cfg, Uncounted(s, false, true)) && s.accepted > 0
    ensures Next(cfg, s, c).launches == s.launches && Next(cfg, s, c).accepted > 0
  {
  }

  lemma {:induction false} NoLaunchAfterAcceptedTurn(cfg: Config, s: State, choices: seq<Choice>)
    requires cfg.client == Codex && Sound(cfg, Uncounted(s, false, true)) && CleanRun(cfg, s, choices) && s.accepted > 0
    ensures Run(cfg, s, choices).launches == s.launches
    decreases |choices|
  {
    if choices != [] {
      StepKeepsAccount(cfg, s, choices[0], false, true);
      TurnEndsLaunches(cfg, s, choices[0]);
      NoLaunchAfterAcceptedTurn(cfg, Next(cfg, s, choices[0]), choices[1..]);
    }
  }

  // What a clean run does does not depend on the counters either.
  lemma {:induction false} RunCounts(cfg: Config, s: State, t: State, choices: seq<Choice>)
    requires t == s.(launches := t.launches, accepted := t.accepted)
    ensures Run(cfg, s, choices).launches - s.launches == Run(cfg, t, choices).launches - t.launches
    ensures Run(cfg, s, choices).accepted - s.accepted == Run(cfg, t, choices).accepted - t.accepted
    ensures CleanRun(cfg, s, choices) == CleanRun(cfg, t, choices)
    decreases |choices|
  {
    if choices != [] {
      NextCounts(cfg, s, t, choices[0]);
      RunCounts(cfg, Next(cfg, s, choices[0]), Next(cfg, t, choices[0]), choices[1..]);
    }
  }

  // A running helper is cut off, by a crash or an exception, or ends without ruling out that its
  // turn was accepted: reported as started, left unconfirmed, or timed out.
  predicate LeavesTurnOpen(s: State, c: Choice) {
    s.pc.Some? && s.pc.value.Helping? &&
    match c
    case Crash(_) => true
    case Raise(_) => true
    case Helper(exit, _) => exit.HelperTimeout? || exit.code == EXIT_STARTED || exit.code == EXIT_NOTIFY_UNCONFIRMED
    case _ => false
  }

  lemma OpenTurnStep(cfg: Config, s: State, c: Choice)
    requires LeavesTurnOpen(s, c)
    ensures var u, v := Next(cfg, s, c), Next(cfg, s, WithTurn(c, true));
            v == u.(accepted := s.accepted + 1) && u.launches == s.launches
  {
  }

  // No launch follows one that was accepted, left ambiguous or cut off, whether or not its turn
  // was in fact accepted and whatever was replayed before, as long as nothing is replayed from
  // there on.
  lemma NoLaunchAfterOpenTurn(cfg: Config, s: State, c: Choice, after: seq<Choice>)
    requires cfg.client == Codex && Sound(cfg, Uncounted(s, false, false))
    requires LeavesTurnOpen(s, c) && Clean(s, c) && CleanRun(cfg, Next(cfg, s, c), after)
    ensures Run(cfg, Next(cfg, s, c), after).launches == s.launches
  {
    var t := Uncounted(s, false, false);
    var accepted := Next(cfg, t, WithTurn(c, true));
    OpenTurnStep(cfg, s, c);
    OpenTurnStep(cfg, t, c);
    NextCounts(cfg, s, t, c);
    StepSound(cfg, t, WithTurn(c, true));
    assert accepted == Uncounted(accepted, false, true);
    RunCounts(cfg, Next(cfg, s, c), accepted, after);
    NoLaunchAfterAcceptedTurn(cfg, accepted, after);
  }

  lemma {:induction false} RunConcat(cfg: Config, s: State, first: seq<Choice>, second: seq<Choice>)
    ensures Run(cfg, s, first + second) == Run(cfg, Run(cfg, s, first), second)
    decreases |first|
  {
    if first == [] {
      assert first + second == second;
    } else {
      assert (first + second)[1..] == first[1..] + second;
      RunConcat(cfg, Next(cfg, s, first[0]), first[1..], second);
    }
  }

  lemma RunOne(cfg: Config, s: State, c: Choice, rest: seq<Choice>)
    ensures Run(cfg, s, [c] + rest) == Run(cfg, Next(cfg, s, c), rest)
  {
    assert ([c] + rest)[1..] == rest;
  }

  lemma RunTwo(cfg: Config, s: State, a: Choice, b: Choice)
    ensures Run(cfg, s, [a, b]) == Next(cfg, Next(cfg, s, a), b)
  {
    RunOne(cfg, s, a, [b]);
    RunOne(cfg, Next(cfg, s, a), b, []);
  }

  lemma RunThree(cfg: Config, s: State, a: Choice, b: Choice, c: Choice)
    ensures Run(cfg, s, [a, b, c]) == Next(cfg, Next(cfg, Next(cfg, s, a), b), c)
  {
    RunOne(cfg, s, a, [b, c]);
    RunTwo(cfg, Next(cfg, s, a), b, c);
  }

  lemma RunFour(cfg: Config, s: State, a: Choice, b: Choice, c: Choice, d: Choice)
    ensures Run(cfg, s, [a, b, c, d]) == Next(cfg, Next(cfg, Next(cfg, Next(cfg, s, a), b), c), d)
  {
    RunOne(cfg, s, a, [b, c, d]);
    RunThree(cfg, Next(cfg, s, a), b, c, d);
  }

  // The same over every run from submission.
  lemma NoLaunchAfterTurn(cfg: Config, before: seq<Choice>, c: Choice, after: seq<Choice>)
    requires cfg.client == Codex && LeavesTurnOpen(Run(cfg, Submitted(cfg), before), c)
    requires var s := Run(cfg, Submitted(cfg), before); Clean(s, c) && CleanRun(cfg, Next(cfg, s, c), after)
    ensures Run(cfg, Submitted(cfg), before + ([c] + after)).launches == Run(cfg, Submitted(cfg), before).launches
  {
    var s := Run(cfg, Submitted(cfg), before);
    RunShaped(cfg, Submitted(cfg), before);
    NoLaunchAfterOpenTurn(cfg, s, c, after);
    RunConcat(cfg, Submitted(cfg), before, [c] + after);
    RunOne(cfg, s, c, after);
  }
}
