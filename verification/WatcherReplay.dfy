// The exact boundary of the two delivery guarantees: from which saved records a further turn
// can be started, from which the launch limit can be exceeded, each shown both ways for every
// reachable state, and runs that reach them.
module WatcherReplay {
  import opened Base
  import opened Delivery
  import opened Watcher
  import opened WatcherSafety

  // A failure of the watcher would still be announced: no attempt is in the log; or, where an
  // owner can withdraw the result first, none is in the record, which is written to the log
  // again when the watch is closed.
  predicate MayAnnounce(cfg: Config, s: State) {
    Unattempted(s.log) || (cfg.owner != NoOwner && IsResult(s.record.result) && s.record.result.value.attempts == 0)
  }

  // A restart resumes the delivery of the result.
  predicate MayDeliver(cfg: Config, record: Record) {
    && IsResult(record.result) && record.phase == Notifying
    && var r := record.result.value;
       r.notice != Attempting && !IsDelivered(r.notice) && r.attempts < cfg.maxAttempts
  }

  predicate Owns(cfg: Config, s: State) {
    cfg.owner == NoOwner || s.claim == Claimed
  }

  // The owner waits for the watch, or its goal can still activate the wait.
  predicate MayOwn(cfg: Config, s: State) {
    Owns(cfg, s) || (cfg.owner == GoalOwner && s.claim == Unclaimed && (s.offered || s.record.phase == Activating))
  }

  predicate MayTurn(cfg: Config, s: State) {
    cfg.notify && cfg.maxAttempts > 0 && MayOwn(cfg, s) && (MayAnnounce(cfg, s) || MayDeliver(cfg, s.record))
  }

  // A watch whose daemon is down in the middle of its life.
  predicate IsDown(s: State) {
    s.pc.None? && s.record.life == Live
  }

  predicate Shaped(cfg: Config, s: State) {
    cfg.client == Codex && Sound(cfg, Uncounted(s, false, false))
  }

  // ---- Getting hold of the owner -----------------------------------------------------------------

  const RESUME: seq<Choice> := [Restart, Lock(true, true)]

  lemma Restarted(cfg: Config, s: State, rest: seq<Choice>)
    requires IsDown(s)
    ensures var up := s.(pc := Some(Locking), cancelled := false);
            && Run(cfg, s, RESUME) == Goto(up, Resumed(cfg, up, IsCurrent(cfg, s, true)))
            && Run(cfg, s, RESUME + rest) == Run(cfg, Run(cfg, s, RESUME), rest)
  {
    var s1 := Next(cfg, s, Restart);
    RunOne(cfg, s, Restart, [Lock(true, true)]);
    RunOne(cfg, s1, Lock(true, true), []);
    RunConcat(cfg, s, RESUME, rest);
  }

  // The restarted task takes the lock and leaves its receipt, and the goal activates the wait.
  function ClaimRun(record: Record): seq<Choice> {
    RESUME + (if record.phase == Activating then [Offer, Own, Crash(false)] else [Own, Crash(false)])
  }

  lemma ResumptionHoldsLock(cfg: Config, s: State, current: bool)
    requires cfg.client == Codex
    ensures HoldsLock(Resumed(cfg, s, current))
  {
    if s.record.phase == Queued {
      assert HoldsLock(WritePhase(Running, Spawning));
    }
  }

  lemma ClaimIsGiven(cfg: Config, s: State)
    requires cfg.client == Codex && IsDown(s) && cfg.owner == GoalOwner && s.claim == Unclaimed
    requires s.offered || s.record.phase == Activating
    ensures Run(cfg, s, ClaimRun(s.record)) == s.(claim := Claimed, offered := true, cancelled := false)
  {
    var up := s.(pc := Some(Locking), cancelled := false);
    ResumptionHoldsLock(cfg, up, IsCurrent(cfg, s, true));
    Restarted(cfg, s, if s.record.phase == Activating then [Offer, Own, Crash(false)] else [Own, Crash(false)]);
    var s2 := Run(cfg, s, RESUME);
    if s.record.phase == Activating {
      var s3 := Next(cfg, s2, Offer);
      var s4 := Next(cfg, s3, Own);
      RunOne(cfg, s2, Offer, [Own, Crash(false)]);
      RunOne(cfg, s3, Own, [Crash(false)]);
      RunOne(cfg, s4, Crash(false), []);
    } else {
      var s3 := Next(cfg, s2, Own);
      RunOne(cfg, s2, Own, [Crash(false)]);
      RunOne(cfg, s3, Crash(false), []);
    }
  }

  function Owning(cfg: Config, s: State): seq<Choice> {
    if Owns(cfg, s) then [] else ClaimRun(s.record)
  }

  // Afterwards the owner waits for the watch, and nothing else has changed.
  lemma ClaimIsObtained(cfg: Config, s: State)
    requires Shaped(cfg, s) && IsDown(s) && MayOwn(cfg, s)
    ensures var t := Run(cfg, s, Owning(cfg, s));
            && t == s.(claim := t.claim, offered := t.offered, cancelled := t.cancelled)
            && Shaped(cfg, t) && IsDown(t) && Owns(cfg, t)
  {
    if !Owns(cfg, s) {
      ClaimIsGiven(cfg, s);
    }
  }

  // ---- Further turns -----------------------------------------------------------------------------

  // From the head of the delivery loop: one more attempt, and the turn is accepted; the helper
  // reports that, or the daemon goes down before it learns of it.
  const ONE_LAUNCH: seq<Choice> := [Attempt(true), Go, Go, Choice.Command(CommandReady)]

  lemma LaunchFollows(cfg: Config, s: State, r: Saved, failing: bool)
    requires cfg.client != Claude && Owns(cfg, s) && s.pc == Some(Delivering(r, failing)) && !s.cancelled && r.attempts < cfg.maxAttempts
    ensures var attempt := r.(notice := Attempting, attempts := r.attempts + 1);
            Run(cfg, s, ONE_LAUNCH) ==
              s.(pc := Some(Helping(attempt, failing)), launches := s.launches + 1,
                 log := LogAfter(s.log, attempt), record := s.record.(result := Some(attempt)))
  {
    var s1 := Next(cfg, s, Attempt(true));
    var s2 := Next(cfg, s1, Go);
    var s3 := Next(cfg, s2, Go);
    RunOne(cfg, s, Attempt(true), [Go, Go, Choice.Command(CommandReady)]);
    RunOne(cfg, s1, Go, [Go, Choice.Command(CommandReady)]);
    RunOne(cfg, s2, Go, [Choice.Command(CommandReady)]);
    RunOne(cfg, s3, Choice.Command(CommandReady), []);
  }

  // A launch, and its end.
  lemma LaunchThen(cfg: Config, s: State, r: Saved, failing: bool, end: Choice)
    requires cfg.client != Claude && Owns(cfg, s) && s.pc == Some(Delivering(r, failing)) && !s.cancelled && r.attempts < cfg.maxAttempts
    ensures Run(cfg, s, ONE_LAUNCH + [end]) == Next(cfg, Run(cfg, s, ONE_LAUNCH), end)
  {
    RunConcat(cfg, s, ONE_LAUNCH, [end]);
    RunOne(cfg, Run(cfg, s, ONE_LAUNCH), end, []);
  }

  const STARTED: Choice := Helper(ExitCode(EXIT_STARTED), true)

  // The saved record takes the restarted task back into delivery.
  lemma ResumeReachesDelivery(cfg: Config, s: State)
    requires IsDown(s) && s.record.phase == Notifying && s.record.result.Some?
    requires s.record.result.value.notice != Attempting && !IsDelivered(s.record.result.value.notice)
    ensures Run(cfg, s, RESUME) == s.(pc := Some(Delivering(s.record.result.value, false)), cancelled := false)
  {
    Restarted(cfg, s, []);
  }

  // Delivery is resumed although its saved outcome leaves open whether a turn was started.
  lemma DeliveryIsResumed(cfg: Config, s: State)
    requires cfg.client == Codex && Owns(cfg, s) && IsDown(s) && s.record.phase == Notifying && s.record.result.Some?
    requires s.record.result.value.notice != Attempting && !IsDelivered(s.record.result.value.notice)
    requires s.record.result.value.attempts < cfg.maxAttempts
    ensures var t := Run(cfg, s, RESUME + (ONE_LAUNCH + [STARTED]));
            t.accepted == s.accepted + 1 && t.launches == s.launches + 1
  {
    var r := s.record.result.value;
    ResumeReachesDelivery(cfg, s);
    var t := Run(cfg, s, RESUME);
    LaunchFollows(cfg, t, r, false);
    LaunchThen(cfg, t, r, false, STARTED);
    RunConcat(cfg, s, RESUME, ONE_LAUNCH + [STARTED]);
  }

  // The daemon restarts, and the watcher fails before it has done anything.
  const FAIL: seq<Choice> := [Restart, Raise(false), Go, Go, Go]

  lemma FailureReachesDelivery(cfg: Config, s: State)
    requires cfg.notify && IsDown(s) && Unattempted(s.log)
    ensures var failure := FailureResult(s.log);
            && Run(cfg, s, FAIL) ==
                 s.(pc := Some(Delivering(failure.(notice := Pending, attempts := 0), true)), cancelled := false,
                    log := LogAfter(s.log, failure), record := s.record.(phase := Notifying))
            && Unattempted(LogAfter(s.log, failure))
            && failure.event == WatcherFailed && (failure.durable.Some? ==> IsResult(s.log))
  {
    var s1 := Next(cfg, s, Restart);
    var s2 := Next(cfg, s1, Raise(false));
    var s3 := Next(cfg, s2, Go);
    var s4 := Next(cfg, s3, Go);
    RunOne(cfg, s, Restart, [Raise(false), Go, Go, Go]);
    RunOne(cfg, s1, Raise(false), [Go, Go, Go]);
    RunOne(cfg, s2, Go, [Go, Go]);
    RunOne(cfg, s3, Go, [Go]);
    RunOne(cfg, s4, Go, []);
  }

  // A failure that is announced, and a daemon that goes down before it learns of the turn.
  const ANNOUNCE: seq<Choice> := FAIL + (ONE_LAUNCH + [Crash(true)])

  // Announcing a failure leaves the watch where the next failure is announced again.
  lemma FailureIsAnnouncedAgain(cfg: Config, s: State)
    requires cfg.client == Codex && cfg.notify && cfg.maxAttempts > 0 && Owns(cfg, s) && IsDown(s) && Unattempted(s.log)
    ensures var t := Run(cfg, s, ANNOUNCE);
            Owns(cfg, t) && IsDown(t) && Unattempted(t.log) && t.launches == s.launches + 1 && t.accepted == s.accepted + 1
  {
    FailureReachesDelivery(cfg, s);
    var t := Run(cfg, s, FAIL);
    var r := FailureResult(s.log).(notice := Pending, attempts := 0);
    LaunchFollows(cfg, t, r, true);
    LaunchThen(cfg, t, r, true, Crash(true));
    RunConcat(cfg, s, FAIL, ONE_LAUNCH + [Crash(true)]);
  }

  function Announcements(n: nat): seq<Choice> {
    if n == 0 then [] else ANNOUNCE + Announcements(n - 1)
  }

  // There is no limit to that.
  lemma {:induction false} AnnouncedAnyNumberOfTimes(cfg: Config, s: State, n: nat)
    requires cfg.client == Codex && cfg.notify && cfg.maxAttempts > 0 && Owns(cfg, s) && IsDown(s) && Unattempted(s.log)
    ensures var t := Run(cfg, s, Announcements(n));
            t.launches == s.launches + n && t.accepted == s.accepted + n
    decreases n
  {
    if n > 0 {
      FailureIsAnnouncedAgain(cfg, s);
      RunConcat(cfg, s, ANNOUNCE, Announcements(n - 1));
      AnnouncedAnyNumberOfTimes(cfg, Run(cfg, s, ANNOUNCE), n - 1);
    }
  }

  // How a watch without an attempt in its record is closed, up to the second writing of its log.
  const WITHDRAW: seq<Choice> := RESUME + [Attempt(false), Go, Go, Crash(false)]
  const ACKNOWLEDGE: seq<Choice> := RESUME + [Ack(true), Go, Crash(false)]
  const CLOSE: seq<Choice> := RESUME + [Go, Crash(false)]

  function Closed(record: Record): seq<Choice> {
    if record.phase == Notifying then WITHDRAW else if record.phase == AwaitingAck then ACKNOWLEDGE else CLOSE
  }

  // The daemon is down again, and the log shows no attempt any more.
  predicate Forgot(s: State, t: State) {
    IsDown(t) && Unattempted(t.log) && t.claim == s.claim && t.launches == s.launches && t.accepted == s.accepted
  }

  lemma WithdrawnForgets(cfg: Config, s: State)
    requires cfg.owner != NoOwner && cfg.client == Codex && IsDown(s) && cfg.maxAttempts > 0 && s.record.phase == Notifying
    requires IsResult(s.record.result) && s.record.result.value.attempts == 0
    requires s.record.result.value.notice != Attempting && !IsDelivered(s.record.result.value.notice)
    ensures Forgot(s, Run(cfg, s, WITHDRAW))
  {
    var r := s.record.result.value.(notice := Withdrawn);
    ResumeReachesDelivery(cfg, s);
    RunConcat(cfg, s, RESUME, [Attempt(false), Go, Go, Crash(false)]);
    var s2 := Run(cfg, s, RESUME);
    var s3 := Next(cfg, s2, Attempt(false));
    assert s3.pc == Some(WriteRecord(r, Some(Finalizing), Closing(r)));
    var s4 := Next(cfg, s3, Go);
    var s5 := Next(cfg, s4, Go);
    RunOne(cfg, s2, Attempt(false), [Go, Go, Crash(false)]);
    RunOne(cfg, s3, Go, [Go, Crash(false)]);
    RunOne(cfg, s4, Go, [Crash(false)]);
    RunOne(cfg, s5, Crash(false), []);
  }

  lemma AcknowledgedForgets(cfg: Config, s: State)
    requires IsDown(s) && s.record.phase == AwaitingAck
    requires IsResult(s.record.result) && s.record.result.value.attempts == 0
    ensures Forgot(s, Run(cfg, s, ACKNOWLEDGE))
  {
    Restarted(cfg, s, [Ack(true), Go, Crash(false)]);
    var s2 := Run(cfg, s, RESUME);
    assert s2.pc == Some(AwaitingWake(s.record.result.value));
    var s3 := Next(cfg, s2, Ack(true));
    var s4 := Next(cfg, s3, Go);
    RunOne(cfg, s2, Ack(true), [Go, Crash(false)]);
    RunOne(cfg, s3, Go, [Crash(false)]);
    RunOne(cfg, s4, Crash(false), []);
  }

  lemma ClosedForgets(cfg: Config, s: State)
    requires IsDown(s) && s.record.phase == Finalizing
    requires IsResult(s.record.result) && s.record.result.value.attempts == 0
    ensures Forgot(s, Run(cfg, s, CLOSE))
  {
    Restarted(cfg, s, [Go, Crash(false)]);
    var s2 := Run(cfg, s, RESUME);
    assert s2.pc == Some(Closing(s.record.result.value));
    var s3 := Next(cfg, s2, Go);
    RunOne(cfg, s2, Go, [Crash(false)]);
    RunOne(cfg, s3, Crash(false), []);
  }

  // An owner that is not seen to wait withdraws the result; closing the watch then writes its
  // record to the log, and with it forgets an attempt that only the log had seen.
  lemma ClosingForgets(cfg: Config, s: State)
    requires Shaped(cfg, s) && IsDown(s) && cfg.maxAttempts > 0 && cfg.owner != NoOwner
    requires IsResult(s.record.result) && s.record.result.value.attempts == 0
    ensures Forgot(s, Run(cfg, s, Closed(s.record)))
  {
    var t := Uncounted(s, false, false);
    assert Accounts(cfg, FactsOf(t), t.record.result.value) && Late(t.record.phase);
    if s.record.phase == Notifying {
      WithdrawnForgets(cfg, s);
    } else if s.record.phase == AwaitingAck {
      AcknowledgedForgets(cfg, s);
    } else {
      ClosedForgets(cfg, s);
    }
  }

  // From a watch that may still announce a failure, any number of launches and of accepted
  // turns can follow.
  lemma AnyNumberOfTurns(cfg: Config, s: State, n: nat) returns (more: seq<Choice>)
    requires Shaped(cfg, s) && IsDown(s) && cfg.notify && cfg.maxAttempts > 0 && MayOwn(cfg, s) && MayAnnounce(cfg, s)
    ensures Run(cfg, s, more).launches == s.launches + n && Run(cfg, s, more).accepted == s.accepted + n
  {
    ClaimIsObtained(cfg, s);
    var t := Run(cfg, s, Owning(cfg, s));
    var turns := if Unattempted(s.log) then Announcements(n) else Closed(s.record) + Announcements(n);
    if Unattempted(s.log) {
      AnnouncedAnyNumberOfTimes(cfg, t, n);
    } else {
      ClosingForgets(cfg, t);
      RunConcat(cfg, t, Closed(t.record), Announcements(n));
      AnnouncedAnyNumberOfTimes(cfg, Run(cfg, t, Closed(t.record)), n);
    }
    more := Owning(cfg, s) + turns;
    RunConcat(cfg, s, Owning(cfg, s), turns);
  }

  // ---- No further turns --------------------------------------------------------------------------

  // A result with an attempt on record, or of a watch that was given up.
  predicate Counts(record: Record, r: Saved) {
    r.event != WatcherFailed && (r.attempts > 0 || record.life == Dropped)
  }

  // Delivery is under way, and nothing can withdraw it before its next attempt.
  predicate Fresh(cfg: Config, record: Record) {
    && cfg.owner == NoOwner && cfg.maxAttempts > 0 && record.phase == Notifying && IsResult(record.result)
    && record.result.value.notice != Attempting && !IsDelivered(record.result.value.notice)
  }

  // The record shows such a result, or nothing at all; when delivery is closed, that record can
  // only be finalized.
  predicate Settled(cfg: Config, closed: bool, record: Record) {
    && Late(record.phase)
    && (record.result.Some? ==> Counts(record, record.result.value) || (!closed && Fresh(cfg, record)))
    && (closed && record.result.Some? && record.phase == Notifying ==>
         var r := record.result.value;
         r.notice == Attempting || IsDelivered(r.notice) || r.attempts >= cfg.maxAttempts)
  }

  // Whatever is still to be written keeps it that way, and no failure is being announced.
  predicate SettledAt(cfg: Config, closed: bool, f: Facts, pc: Pc)
    decreases pc
  {
    match pc
    case Locking => true
    case WriteLog(r, to, next) => Counts(f.record, r) && Settled(cfg, closed, Wrote(f, r, to).record) && SettledAt(cfg, closed, Wrote(f, r, to), next)
    case WriteRecord(r, to, next) => Counts(f.record, r) && Settled(cfg, closed, Wrote(f, r, to).record) && SettledAt(cfg, closed, Wrote(f, r, to), next)
    case Delivering(r, failing) =>
      !failing && f.record.result == Some(r) && (Counts(f.record, r) || (!closed && Fresh(cfg, f.record))) && (closed ==> r.attempts >= cfg.maxAttempts)
    case Launching(r, failing) => !failing && !closed && Counts(f.record, r)
    case Helping(r, failing) => !failing && !closed && Counts(f.record, r)
    case AwaitingWake(r) => Counts(f.record, r)
    case Closing(r) => Counts(f.record, r)
    case Raising(_) => true
    case Ending(r) => r.event == WatcherFailed && f.record.life == Live ==> r.durable.Some? && r.durable.value.1 > 0
    case Finishing(_) => true
    case _ => false
  }

  predicate Sealed(cfg: Config, closed: bool, s: State) {
    && (s.record.life == Done ==> s.pc.None?) && (s.cancelled ==> s.record.life != Live)
    && (s.record.life != Done ==>
         && Settled(cfg, closed, s.record)
         && (s.record.life == Live ==> !Unattempted(s.log))
         && (s.pc.Some? ==> SettledAt(cfg, closed, FactsOf(s), s.pc.value)))
  }

  lemma {:induction false} SettledAtIgnores(cfg: Config, closed: bool, f: Facts, g: Facts, pc: Pc)
    requires SettledAt(cfg, closed, f, pc) && g.record == f.record
    ensures SettledAt(cfg, closed, g, pc)
    decreases pc
  {
    match pc {
      case WriteLog(r, to, next) => SettledAtIgnores(cfg, closed, Wrote(f, r, to), Wrote(g, r, to), next);
      case WriteRecord(r, to, next) => SettledAtIgnores(cfg, closed, Wrote(f, r, to), Wrote(g, r, to), next);
      case _ =>
    }
  }

  lemma ProceedSealed(cfg: Config, closed: bool, s: State)
    requires Sealed(cfg, closed, s) && s.pc.Some?
    ensures Sealed(cfg, closed, Proceed(cfg, s))
  {
    var t := Proceed(cfg, s);
    match s.pc.value {
      case WriteLog(r, to, next) => SettledAtIgnores(cfg, closed, Wrote(FactsOf(s), r, to), Wrote(FactsOf(t), r, to), next);
      case WriteRecord(r, to, next) => SettledAtIgnores(cfg, closed, Wrote(FactsOf(s), r, to), FactsOf(t), next);
      case _ =>
    }
  }

  lemma ClosingSealed(cfg: Config, closed: bool, s: State, r: Saved)
    requires Sealed(cfg, closed, s) && s.record.life != Done && Counts(s.record, r)
    ensures SettledAt(cfg, closed, FactsOf(s), WriteLog(r, Some(Finalizing), Closing(r)))
    ensures SettledAt(cfg, closed, FactsOf(s), WriteRecord(r, Some(Finalizing), Closing(r)))
    ensures SettledAt(cfg, closed, FactsOf(s), WriteRecord(r, Some(AwaitingAck), AwaitingWake(r)))
  {
    assert SettledAt(cfg, closed, Wrote(FactsOf(s), r, Some(Finalizing)), Closing(r));
    assert SettledAt(cfg, closed, Wrote(FactsOf(s), r, Some(AwaitingAck)), AwaitingWake(r));
  }

  lemma ResumedSealed(cfg: Config, closed: bool, s: State, current: bool)
    requires Sealed(cfg, closed, s) && s.pc == Some(Locking) && s.record.life != Done
    ensures SettledAt(cfg, closed, FactsOf(s), Resumed(cfg, s, current))
  {
    if s.record.result.Some? {
      var r := s.record.result.value;
      if Counts(s.record, r) {
        ClosingSealed(cfg, closed, s, r);
        ClosingSealed(cfg, closed, s, r.(notice := Unconfirmed));
      }
    }
  }

  lemma TriedSealed(cfg: Config, closed: bool, s: State, r: Saved, current: bool)
    requires cfg.client == Codex && Sealed(cfg, closed, s) && s.pc == Some(Delivering(r, false)) && s.record.life != Done
    requires cfg.owner == NoOwner ==> current
    ensures SettledAt(cfg, closed, FactsOf(s), Tried(cfg, s, r, false, current))
  {
    if Counts(s.record, r) {
      ClosingSealed(cfg, closed, s, r);
      ClosingSealed(cfg, closed, s, r.(notice := Withdrawn));
    }
    if r.attempts < cfg.maxAttempts {
      var attempt := r.(notice := Attempting, attempts := r.attempts + 1);
      assert SettledAt(cfg, closed, Wrote(FactsOf(s), attempt, None), Launching(attempt, false)) || closed;
    }
  }

  // Whatever came of an attempt is saved as one.
  lemma OutcomeSealed(cfg: Config, s: State, r: Saved)
    requires Sealed(cfg, false, s) && s.record.life != Done && Counts(s.record, r)
    ensures SettledAt(cfg, false, FactsOf(s), WriteLog(r, None, Undelivered(r, false)))
    ensures SettledAt(cfg, false, FactsOf(s), AfterHelper(cfg, r, false))
  {
    var f := Wrote(FactsOf(s), r, None);
    var t := s.(record := f.record, log := f.log, pc := None);
    ClosingSealed(cfg, false, t, r);
    SettledAtIgnores(cfg, false, FactsOf(t), f, Undelivered(r, false));
    SettledAtIgnores(cfg, false, FactsOf(t), f, Accepted(cfg, r, false));
  }

  lemma GotoSealed(cfg: Config, closed: bool, s: State, t: State, pc: Pc)
    requires Sealed(cfg, closed, s) && s.record.life != Done && SettledAt(cfg, closed, FactsOf(s), pc)
    requires t.record == s.record && t.log == s.log && t.cancelled == s.cancelled && t.pc == Some(pc)
    ensures Sealed(cfg, closed, t)
  {
    SettledAtIgnores(cfg, closed, FactsOf(s), FactsOf(t), pc);
  }

  lemma HelperSealed(cfg: Config, s: State, exit: Exit, turn: bool)
    requires Sealed(cfg, false, s) && s.record.life != Done && s.pc.Some? && s.pc.value.Helping? && Possible(cfg, exit, turn)
    ensures Sealed(cfg, false, Next(cfg, s, Helper(exit, turn)))
  {
    var r := HelperResult(cfg, s.pc.value.result, exit);
    HelperStep(cfg, s, exit, turn);
    OutcomeSealed(cfg, s, r);
    GotoSealed(cfg, false, s, Next(cfg, s, Helper(exit, turn)), AfterHelper(cfg, r, false));
  }

  lemma CommandSealed(cfg: Config, s: State, outcome: Command)
    requires Sealed(cfg, false, s) && s.record.life != Done && s.pc.Some? && s.pc.value.Launching?
    ensures Sealed(cfg, false, Next(cfg, s, Choice.Command(outcome)))
  {
    if outcome != CommandReady {
      var r := s.pc.value.result.(notice := if outcome == CommandUnavailable then Unavailable else NotLaunched);
      OutcomeSealed(cfg, s, r);
      GotoSealed(cfg, false, s, Next(cfg, s, Choice.Command(outcome)), WriteLog(r, None, Undelivered(r, false)));
    }
  }

  lemma DeliverySealed(cfg: Config, closed: bool, s: State, c: Choice)
    requires cfg.client == Codex && Sealed(cfg, closed, s) && s.pc.Some? && s.record.life != Done
    requires c.Attempt? || c.Command? || c.Helper?
    ensures Sealed(cfg, closed, Next(cfg, s, c))
  {
    var pc := s.pc.value;
    if c.Attempt? && pc.Delivering? {
      TriedSealed(cfg, closed, s, pc.result, IsCurrent(cfg, s, c.current));
    } else if c.Command? && pc.Launching? {
      CommandSealed(cfg, s, c.outcome);
    } else if c.Helper? && pc.Helping? && Possible(cfg, c.exit, c.turn) {
      HelperSealed(cfg, s, c.exit, c.turn);
    }
  }

  lemma StepSealed(cfg: Config, closed: bool, s: State, c: Choice)
    requires cfg.client == Codex && Sealed(cfg, closed, s)
    ensures Sealed(cfg, closed, Next(cfg, s, c)) && !Relapses(s, c)
  {
    if s.pc.Some? {
      var pc := s.pc.value;
      match c {
        case Go => ProceedSealed(cfg, closed, s);
        case Lock(held, current) =>
          if held && pc.Locking? {
            ResumedSealed(cfg, closed, s, IsCurrent(cfg, s, current));
          }
        case Attempt(_) => DeliverySealed(cfg, closed, s, c);
        case Command(_) => DeliverySealed(cfg, closed, s, c);
        case Helper(_, _) => DeliverySealed(cfg, closed, s, c);
        case Drop =>
          if AtAwait(pc) && s.record.life == Live {
            DroppedSealed(cfg, closed, s);
          }
        case Ack(current) =>
          if pc.AwaitingWake? {
            AckSealed(cfg, closed, s, current);
          }
        case _ =>
      }
    }
  }

  lemma DroppedSealed(cfg: Config, closed: bool, s: State)
    requires Sealed(cfg, closed, s) && s.pc.Some? && AtAwait(s.pc.value) && s.record.life == Live
    ensures Sealed(cfg, closed, s.(record := s.record.(life := Dropped), cancelled := true))
  {
    var t := s.(record := s.record.(life := Dropped), cancelled := true);
    LifeDoesNotMatter(cfg, closed, FactsOf(s), FactsOf(t), s.pc.value);
  }

  lemma AckSealed(cfg: Config, closed: bool, s: State, current: bool)
    requires Sealed(cfg, closed, s) && s.pc.Some? && s.pc.value.AwaitingWake? && s.record.life != Done
    ensures Sealed(cfg, closed, Next(cfg, s, Ack(current)))
  {
    var r := AckResult(s, s.pc.value.result, IsCurrent(cfg, s, current));
    ClosingSealed(cfg, closed, s, r);
    GotoSealed(cfg, closed, s, Next(cfg, s, Ack(current)), WriteLog(r, Some(Finalizing), Closing(r)));
  }

  lemma LifeDoesNotMatter(cfg: Config, closed: bool, f: Facts, g: Facts, pc: Pc)
    requires SettledAt(cfg, closed, f, pc) && AtAwait(pc) && g.record == f.record.(life := Dropped)
    ensures SettledAt(cfg, closed, g, pc)
  {
  }

  lemma ClosedStepIsStill(cfg: Config, s: State, c: Choice)
    requires Sealed(cfg, true, s)
    ensures Next(cfg, s, c).launches == s.launches && Next(cfg, s, c).accepted == s.accepted
  {
  }

  // Once closed, delivery never starts again.
  lemma {:induction false} SealedForever(cfg: Config, s: State, choices: seq<Choice>)
    requires cfg.client == Codex && Sealed(cfg, true, s)
    ensures Run(cfg, s, choices).launches == s.launches && Run(cfg, s, choices).accepted == s.accepted
    decreases |choices|
  {
    if choices != [] {
      StepSealed(cfg, true, s, choices[0]);
      ClosedStepIsStill(cfg, s, choices[0]);
      SealedForever(cfg, Next(cfg, s, choices[0]), choices[1..]);
    }
  }

  lemma {:induction false} SealedNeverRelapses(cfg: Config, s: State, choices: seq<Choice>)
    requires cfg.client == Codex && Sealed(cfg, false, s)
    ensures NeverRelapses(cfg, s, choices)
    decreases |choices|
  {
    if choices != [] {
      StepSealed(cfg, false, s, choices[0]);
      SealedNeverRelapses(cfg, Next(cfg, s, choices[0]), choices[1..]);
    }
  }

  // A failure being announced, or announced, excludes an attempt in the log; so a watch that may
  // not announce a failure is sealed.
  lemma SilentIsSealed(cfg: Config, s: State)
    requires Shaped(cfg, s) && IsDown(s) && cfg.maxAttempts > 0 && !MayAnnounce(cfg, s)
    ensures Sealed(cfg, false, s) && (!MayDeliver(cfg, s.record) ==> Sealed(cfg, true, s))
  {
    var t := Uncounted(s, false, false);
    if s.record.result.Some? {
      assert LogAgrees(t.log, t.record.result.value) && Accounts(cfg, FactsOf(t), t.record.result.value);
      assert Ordered(cfg, FactsOf(t));
    }
  }

  // ---- Watches that never deliver ----------------------------------------------------------------

  // Nothing is delivered and nothing is going to be.
  predicate MuteAt(pc: Pc) {
    match pc
    case WritePhase(phase, next) => phase != Notifying && MuteAt(next)
    case WriteLog(_, to, next) => to != Some(Notifying) && MuteAt(next)
    case WriteRecord(_, to, next) => to != Some(Notifying) && MuteAt(next)
    case Delivering(_, _) => false
    case Launching(_, _) => false
    case Helping(_, _) => false
    case _ => true
  }

  predicate Mute(s: State) {
    s.record.phase != Notifying && (s.pc.Some? ==> MuteAt(s.pc.value))
  }

  lemma ConcludedIsMute(cfg: Config, s: State, event: Happening, durable: Option<(Notice, nat)>, notice: Notice, attempts: nat, current: bool)
    requires !cfg.notify
    ensures MuteAt(Concluded(cfg, s, event, durable, notice, attempts, current))
  {
  }

  lemma ResumptionIsMute(cfg: Config, s: State, current: bool)
    requires !cfg.notify && s.record.phase != Notifying
    ensures MuteAt(Resumed(cfg, s, current))
  {
    if s.log.Some? {
      ConcludedIsMute(cfg, s, s.log.value.event, s.log.value.durable, s.log.value.notice, s.log.value.attempts, current);
    }
    ConcludedIsMute(cfg, s, Interrupted, None, Silent, 0, current);
  }

  lemma StepMute(cfg: Config, s: State, c: Choice)
    requires !cfg.notify && Mute(s)
    ensures var t := Next(cfg, s, c);
            Mute(t) && t.launches == s.launches && t.accepted == s.accepted
  {
    match c {
      case Lock(_, current) => ResumptionIsMute(cfg, s, IsCurrent(cfg, s, current));
      case Skip(event, current) => ConcludedIsMute(cfg, s, event, None, Silent, 0, IsCurrent(cfg, s, current));
      case End(event, current) => ConcludedIsMute(cfg, s, event, None, Silent, 0, IsCurrent(cfg, s, current));
      case Poll(_, _) =>
        assert MuteAt(WritePhase(Queued, WritePhase(Running, Spawning)));
      case _ =>
    }
  }

  lemma {:induction false} MuteForever(cfg: Config, s: State, choices: seq<Choice>)
    requires !cfg.notify && Mute(s)
    ensures Run(cfg, s, choices).launches == s.launches && Run(cfg, s, choices).accepted == s.accepted
    ensures Mute(Run(cfg, s, choices))
    decreases |choices|
  {
    if choices != [] {
      StepMute(cfg, s, choices[0]);
      MuteForever(cfg, Next(cfg, s, choices[0]), choices[1..]);
    }
  }

  lemma NoAttemptsStep(cfg: Config, s: State, c: Choice)
    requires Shaped(cfg, s) && cfg.maxAttempts == 0
    ensures Next(cfg, s, c).launches == s.launches && Next(cfg, s, c).accepted == s.accepted
  {
  }

  lemma {:induction false} NoAttemptsForever(cfg: Config, s: State, choices: seq<Choice>)
    requires Shaped(cfg, s) && cfg.maxAttempts == 0
    ensures Run(cfg, s, choices).launches == s.launches && Run(cfg, s, choices).accepted == s.accepted
    decreases |choices|
  {
    if choices != [] {
      NoAttemptsStep(cfg, s, choices[0]);
      StepKeepsShape(cfg, s, choices[0], false);
      NoAttemptsForever(cfg, Next(cfg, s, choices[0]), choices[1..]);
    }
  }

  // ---- Watches nobody waits for ------------------------------------------------------------------

  // No launch is prepared, and the watch does not go back to its activation.
  predicate LostAt(pc: Pc) {
    match pc
    case WritePhase(phase, next) => phase != Activating && LostAt(next) && !next.Polling?
    case WriteLog(_, to, next) => to != Some(Activating) && LostAt(next) && !next.Polling?
    case WriteRecord(_, to, next) => to != Some(Activating) && LostAt(next) && !next.Polling?
    case Launching(_, _) => false
    case Helping(_, _) => false
    case _ => true
  }

  // The owner let go of the watch, or never can get hold of it.
  predicate Lost(cfg: Config, s: State) {
    && cfg.owner != NoOwner && s.claim != Claimed && (s.pc.Some? ==> LostAt(s.pc.value))
    && (s.claim == Unclaimed && cfg.owner == GoalOwner ==> !s.offered && s.record.phase != Activating && s.pc != Some(Polling))
  }

  lemma DeliveryIsLost(cfg: Config, r: Saved, failing: bool)
    ensures LostAt(Undelivered(r, failing)) && LostAt(Accepted(cfg, r, failing))
    ensures !Undelivered(r, failing).Polling? && !Accepted(cfg, r, failing).Polling?
  {
    assert LostAt(WriteRecord(r, Some(Finalizing), Closing(r)));
    assert LostAt(WriteRecord(r, Some(AwaitingAck), AwaitingWake(r)));
  }

  lemma ConcludedIsLost(cfg: Config, s: State, event: Happening, durable: Option<(Notice, nat)>, notice: Notice, attempts: nat, current: bool)
    ensures LostAt(Concluded(cfg, s, event, durable, notice, attempts, current))
  {
  }

  lemma ResumptionIsLost(cfg: Config, s: State, current: bool)
    ensures LostAt(Resumed(cfg, s, current)) && (s.record.phase != Activating ==> !Resumed(cfg, s, current).Polling?)
  {
    if s.log.Some? {
      ConcludedIsLost(cfg, s, s.log.value.event, s.log.value.durable, s.log.value.notice, s.log.value.attempts, current);
    }
    ConcludedIsLost(cfg, s, Interrupted, None, Silent, 0, current);
    if s.record.result.Some? {
      var r := s.record.result.value;
      DeliveryIsLost(cfg, r, false);
      assert LostAt(WriteLog(r.(notice := Unconfirmed), Some(Finalizing), Closing(r.(notice := Unconfirmed))));
    }
    assert LostAt(WritePhase(Running, Spawning));
  }

  lemma TryIsLost(cfg: Config, s: State, r: Saved, failing: bool)
    requires cfg.client == Codex
    ensures LostAt(Tried(cfg, s, r, failing, false))
  {
    DeliveryIsLost(cfg, r, failing);
    DeliveryIsLost(cfg, r.(notice := Withdrawn), failing);
  }

  lemma ProceedLost(cfg: Config, s: State)
    requires Lost(cfg, s) && s.pc.Some?
    ensures Lost(cfg, Proceed(cfg, s))
  {
    match s.pc.value {
      case Ending(r) => assert LostAt(WritePhase(Notifying, Delivering(r.(notice := Pending, attempts := 0), true)));
      case _ =>
    }
  }

  lemma StepLost(cfg: Config, s: State, c: Choice)
    requires cfg.client == Codex && Lost(cfg, s)
    ensures var t := Next(cfg, s, c);
            Lost(cfg, t) && t.launches == s.launches && t.accepted == s.accepted
  {
    if s.pc.Some? {
      var pc := s.pc.value;
      match c {
        case Go => ProceedLost(cfg, s);
        case Lock(_, current) => ResumptionIsLost(cfg, s, IsCurrent(cfg, s, current));
        case Skip(event, current) => ConcludedIsLost(cfg, s, event, None, Silent, 0, IsCurrent(cfg, s, current));
        case End(event, current) => ConcludedIsLost(cfg, s, event, None, Silent, 0, IsCurrent(cfg, s, current));
        case Attempt(current) =>
          if pc.Delivering? {
            TryIsLost(cfg, s, pc.result, pc.failing);
          }
        case _ =>
      }
    }
  }

  lemma {:induction false} LostForever(cfg: Config, s: State, choices: seq<Choice>)
    requires cfg.client == Codex && Lost(cfg, s)
    ensures Run(cfg, s, choices).launches == s.launches && Run(cfg, s, choices).accepted == s.accepted
    decreases |choices|
  {
    if choices != [] {
      StepLost(cfg, s, choices[0]);
      LostForever(cfg, Next(cfg, s, choices[0]), choices[1..]);
    }
  }

  // ---- The two boundaries --------------------------------------------------------------------------

  lemma StillUnlessMayTurn(cfg: Config, s: State, choices: seq<Choice>)
    requires Shaped(cfg, s) && IsDown(s) && (!cfg.notify ==> Mute(s)) && !MayTurn(cfg, s)
    ensures Run(cfg, s, choices).launches == s.launches && Run(cfg, s, choices).accepted == s.accepted
  {
    if !cfg.notify {
      MuteForever(cfg, s, choices);
    } else if cfg.maxAttempts == 0 {
      NoAttemptsForever(cfg, s, choices);
    } else if !MayOwn(cfg, s) {
      LostForever(cfg, s, choices);
    } else {
      SilentIsSealed(cfg, s);
      SealedForever(cfg, s, choices);
    }
  }

  lemma MayTurnTurns(cfg: Config, s: State) returns (more: seq<Choice>)
    requires Shaped(cfg, s) && IsDown(s) && MayTurn(cfg, s)
    ensures Run(cfg, s, more).launches > s.launches && Run(cfg, s, more).accepted > s.accepted
  {
    if MayDeliver(cfg, s.record) {
      ClaimIsObtained(cfg, s);
      more := Owning(cfg, s) + (RESUME + (ONE_LAUNCH + [STARTED]));
      DeliveryIsResumed(cfg, Run(cfg, s, Owning(cfg, s)));
      RunConcat(cfg, s, Owning(cfg, s), RESUME + (ONE_LAUNCH + [STARTED]));
    } else {
      more := AnyNumberOfTurns(cfg, s, 1);
    }
  }

  // What every reachable state satisfies.
  lemma ReachableShaped(cfg: Config, choices: seq<Choice>)
    requires cfg.client == Codex
    ensures var s := Run(cfg, Submitted(cfg), choices);
            Shaped(cfg, s) && (!cfg.notify ==> Mute(s) && s.launches == 0 && s.accepted == 0)
  {
    RunShaped(cfg, Submitted(cfg), choices);
    if !cfg.notify {
      MuteForever(cfg, Submitted(cfg), choices);
    }
  }

  // Whenever the daemon goes down in the middle of a watch, whatever happened before, a further
  // turn, and a further launch, can follow if and only if log and registry say so.
  lemma FurtherTurnIff(cfg: Config, choices: seq<Choice>)
    requires cfg.client == Codex && IsDown(Run(cfg, Submitted(cfg), choices))
    ensures var s := Run(cfg, Submitted(cfg), choices);
            && ((exists more :: Run(cfg, s, more).accepted > s.accepted) <==> MayTurn(cfg, s))
            && ((exists more :: Run(cfg, s, more).launches > s.launches) <==> MayTurn(cfg, s))
  {
    var s := Run(cfg, Submitted(cfg), choices);
    ReachableShaped(cfg, choices);
    if MayTurn(cfg, s) {
      var more := MayTurnTurns(cfg, s);
    } else {
      forall more ensures Run(cfg, s, more).accepted == s.accepted && Run(cfg, s, more).launches == s.launches {
        StillUnlessMayTurn(cfg, s, more);
      }
    }
  }

  // What the registry shows after one turn when nothing was replayed since: a failure that was
  // announced, or a delivery left unconfirmed with attempts to spare before its phase advanced.
  predicate CanReplay(cfg: Config, record: Record) {
    record.result.Some? &&
    var r := record.result.value;
    r.event == WatcherFailed || (record.phase == Notifying && r.notice == Unconfirmed && r.attempts < cfg.maxAttempts)
  }

  lemma TurnShowsInRecord(cfg: Config, s: State)
    requires cfg.client == Codex && cfg.notify && Sound(cfg, Uncounted(s, false, true)) && IsDown(s) && s.accepted == 1
    ensures MayTurn(cfg, s) <==> MayOwn(cfg, s) && CanReplay(cfg, s.record)
  {
    var t := Uncounted(s, false, true);
    assert Accounts(cfg, FactsOf(t), t.record.result.value) && LogAgrees(t.log, t.record.result.value);
  }

  // A second turn can follow the first if and only if the registry shows one of the two and the
  // owner still waits for the watch.
  lemma SecondTurnIffCanReplay(cfg: Config, choices: seq<Choice>)
    requires cfg.client == Codex && CleanAfterTurn(cfg, Submitted(cfg), choices)
    requires var s := Run(cfg, Submitted(cfg), choices); IsDown(s) && s.accepted == 1
    ensures var s := Run(cfg, Submitted(cfg), choices);
            (exists more :: Run(cfg, s, more).accepted >= 2) <==> MayOwn(cfg, s) && CanReplay(cfg, s.record)
  {
    var s := Run(cfg, Submitted(cfg), choices);
    FurtherTurnIff(cfg, choices);
    ReachableShaped(cfg, choices);
    RunKeepsTurns(cfg, Submitted(cfg), choices);
    TurnShowsInRecord(cfg, s);
    if MayTurn(cfg, s) {
      var more :| Run(cfg, s, more).accepted > s.accepted;
      assert Run(cfg, s, more).accepted >= 2;
    }
  }

  // A watch whose announced failure failed again.
  predicate NoticeAt(pc: Pc) {
    match pc
    case Polling => false
    case Spawning => false
    case Observing => false
    case WritePhase(_, next) => NoticeAt(next)
    case WriteLog(r, _, next) => r.event == WatcherFailed && NoticeAt(next)
    case WriteRecord(r, _, next) => r.event == WatcherFailed && NoticeAt(next)
    case Delivering(r, _) => r.event == WatcherFailed
    case Launching(r, _) => r.event == WatcherFailed
    case Helping(r, _) => r.event == WatcherFailed
    case AwaitingWake(r) => r.event == WatcherFailed
    case Closing(r) => r.event == WatcherFailed
    case _ => true
  }

  predicate Announced(s: State) {
    s.record.life == Done || (IsNotice(s.record.result) && (s.pc.Some? ==> NoticeAt(s.pc.value)))
  }

  lemma DeliveryAnnounces(cfg: Config, r: Saved, failing: bool)
    requires r.event == WatcherFailed
    ensures NoticeAt(Undelivered(r, failing)) && NoticeAt(Accepted(cfg, r, failing)) && NoticeAt(AfterHelper(cfg, r, failing))
  {
    assert NoticeAt(WriteRecord(r, Some(Finalizing), Closing(r)));
    assert NoticeAt(WriteRecord(r, Some(AwaitingAck), AwaitingWake(r)));
  }

  lemma TryAnnounces(cfg: Config, s: State, r: Saved, failing: bool, current: bool)
    requires r.event == WatcherFailed
    ensures NoticeAt(Tried(cfg, s, r, failing, current))
  {
    DeliveryAnnounces(cfg, r, failing);
    DeliveryAnnounces(cfg, r.(notice := Withdrawn), failing);
    DeliveryAnnounces(cfg, r.(notice := NativePending, attempts := 0), failing);
  }

  lemma ResumptionAnnounces(cfg: Config, s: State, current: bool)
    requires IsNotice(s.record.result) && Late(s.record.phase)
    ensures NoticeAt(Resumed(cfg, s, current))
  {
    var r := s.record.result.value;
    var unsure := r.(notice := Unconfirmed);
    DeliveryAnnounces(cfg, r, false);
    assert NoticeAt(WriteLog(unsure, Some(Finalizing), Closing(unsure)));
  }

  lemma HelperAnnounces(cfg: Config, s: State, exit: Exit, turn: bool)
    requires Announced(s) && s.record.life != Done && s.pc.Some? && s.pc.value.Helping? && Possible(cfg, exit, turn)
    ensures Announced(Next(cfg, s, Helper(exit, turn)))
  {
    HelperStep(cfg, s, exit, turn);
    DeliveryAnnounces(cfg, HelperResult(cfg, s.pc.value.result, exit), s.pc.value.failing);
  }

  lemma CommandAnnounces(cfg: Config, s: State, outcome: Command)
    requires Announced(s) && s.record.life != Done && s.pc.Some? && s.pc.value.Launching?
    ensures Announced(Next(cfg, s, Choice.Command(outcome)))
  {
    var r := s.pc.value.result.(notice := if outcome == CommandUnavailable then Unavailable else NotLaunched);
    DeliveryAnnounces(cfg, r, s.pc.value.failing);
  }

  // A record of a failure never becomes the record of a result again.
  lemma StaysAnnounced(cfg: Config, s: State, c: Choice)
    requires Shaped(cfg, s) && Announced(s)
    ensures Announced(Next(cfg, s, c))
  {
    if s.pc.Some? && s.record.life != Done {
      var pc := s.pc.value;
      match c {
        case Attempt(current) =>
          if pc.Delivering? {
            AttemptAnnounces(cfg, s, current);
          }
        case Command(outcome) =>
          if pc.Launching? {
            CommandAnnounces(cfg, s, outcome);
          }
        case Helper(exit, turn) =>
          if pc.Helping? && Possible(cfg, exit, turn) {
            HelperAnnounces(cfg, s, exit, turn);
          }
        case Lock(held, current) =>
          assert Late(Uncounted(s, false, false).record.phase);
          ResumptionAnnounces(cfg, s, IsCurrent(cfg, s, current));
        case Ack(current) =>
          if pc.AwaitingWake? {
            AckAnnounces(cfg, s, current);
          }
        case Go => ProceedAnnounces(cfg, s);
        case _ =>
      }
    }
  }

  lemma AttemptAnnounces(cfg: Config, s: State, current: bool)
    requires Announced(s) && s.record.life != Done && s.pc.Some? && s.pc.value.Delivering?
    ensures Announced(Next(cfg, s, Attempt(current)))
  {
    TryAnnounces(cfg, s, s.pc.value.result, s.pc.value.failing, IsCurrent(cfg, s, current));
  }

  lemma AckAnnounces(cfg: Config, s: State, current: bool)
    requires Announced(s) && s.record.life != Done && s.pc.Some? && s.pc.value.AwaitingWake?
    ensures Announced(Next(cfg, s, Ack(current)))
  {
    var r := AckResult(s, s.pc.value.result, IsCurrent(cfg, s, current));
    assert NoticeAt(WriteLog(r, Some(Finalizing), Closing(r)));
  }

  lemma ProceedAnnounces(cfg: Config, s: State)
    requires Announced(s) && s.record.life != Done && s.pc.Some?
    ensures Announced(Proceed(cfg, s))
  {
  }

  // Launches are within the limit unless an announced failure failed again, and then the record
  // still shows a failure.
  lemma {:induction false} LimitedOrAnnounced(cfg: Config, s: State, choices: seq<Choice>)
    requires Shaped(cfg, s) && (Sound(cfg, Uncounted(s, true, false)) || Announced(s))
    ensures var t := Run(cfg, s, choices);
            Sound(cfg, Uncounted(t, true, false)) || Announced(t)
    decreases |choices|
  {
    if choices != [] {
      var t := Next(cfg, s, choices[0]);
      StepKeepsShape(cfg, s, choices[0], false);
      if Announced(s) {
        StaysAnnounced(cfg, s, choices[0]);
      } else {
        StepKeepsShape(cfg, s, choices[0], true);
      }
      LimitedOrAnnounced(cfg, t, choices[1..]);
    }
  }

  lemma SealedStaysLimited(cfg: Config, choices: seq<Choice>, more: seq<Choice>)
    requires cfg.client == Codex && cfg.maxAttempts > 0 && IsDown(Run(cfg, Submitted(cfg), choices))
    requires !MayAnnounce(cfg, Run(cfg, Submitted(cfg), choices))
    ensures Run(cfg, Run(cfg, Submitted(cfg), choices), more).launches <= cfg.maxAttempts
  {
    var s := Run(cfg, Submitted(cfg), choices);
    ReachableShaped(cfg, choices);
    LimitedOrAnnounced(cfg, Submitted(cfg), choices);
    SilentIsSealed(cfg, s);
    SealedNeverRelapses(cfg, s, more);
    RunKeepsLaunches(cfg, s, more);
  }

  // Record, log and owner allow any number of launches.
  predicate MayExceed(cfg: Config, s: State) {
    cfg.notify && cfg.maxAttempts > 0 && MayOwn(cfg, s) && MayAnnounce(cfg, s)
  }

  lemma StaysLimited(cfg: Config, choices: seq<Choice>, more: seq<Choice>)
    requires cfg.client == Codex && IsDown(Run(cfg, Submitted(cfg), choices))
    requires var s := Run(cfg, Submitted(cfg), choices); s.launches <= cfg.maxAttempts && !MayExceed(cfg, s)
    ensures Run(cfg, Run(cfg, Submitted(cfg), choices), more).launches <= cfg.maxAttempts
  {
    var s := Run(cfg, Submitted(cfg), choices);
    ReachableShaped(cfg, choices);
    if !cfg.notify {
      MuteForever(cfg, s, more);
    } else if cfg.maxAttempts == 0 {
      NoAttemptsForever(cfg, s, more);
    } else if !MayOwn(cfg, s) {
      LostForever(cfg, s, more);
    } else {
      SealedStaysLimited(cfg, choices, more);
    }
  }

  // Once the daemon is down in the middle of a watch, whatever happened before, more launches than
  // the limit allows can be seen if and only if they were already, or the watch notifies, has
  // attempts and an owner that waits for it, and may still announce a failure.
  lemma LimitExceededIff(cfg: Config, choices: seq<Choice>)
    requires cfg.client == Codex && IsDown(Run(cfg, Submitted(cfg), choices))
    ensures var s := Run(cfg, Submitted(cfg), choices);
            (exists more :: Run(cfg, s, more).launches > cfg.maxAttempts) <==> s.launches > cfg.maxAttempts || MayExceed(cfg, s)
  {
    var s := Run(cfg, Submitted(cfg), choices);
    ReachableShaped(cfg, choices);
    if s.launches > cfg.maxAttempts {
      assert Run(cfg, s, []).launches > cfg.maxAttempts;
    } else if MayExceed(cfg, s) {
      var more := AnyNumberOfTurns(cfg, s, cfg.maxAttempts + 1);
    } else {
      forall more ensures Run(cfg, s, more).launches <= cfg.maxAttempts {
        StaysLimited(cfg, choices, more);
      }
    }
  }

  // ---- All of it can be reached ----------------------------------------------------------------------

  // Submission to the start of the program, after the activation of the wait where a goal owns it.
  function ToProgram(cfg: Config): seq<Choice> {
    (if cfg.owner == GoalOwner then [Lock(true, true), Offer, Own, Poll(GoalActive, false), Go] else [Lock(true, true)]) + [Go, Spawn, Go]
  }

  function Observed(cfg: Config): State {
    State(Record(Live, Querying, None), None, Some(Observing), false, cfg.owner == GoalOwner, Claimed, 1, 0, 0)
  }

  lemma ReachesRunning(cfg: Config)
    ensures var first := if cfg.owner == GoalOwner then [Lock(true, true), Offer, Own, Poll(GoalActive, false), Go] else [Lock(true, true)];
            Run(cfg, Submitted(cfg), first) ==
              State(Record(Live, Queued, None), None, Some(WritePhase(Running, Spawning)), false, cfg.owner == GoalOwner, Claimed, 0, 0, 0)
  {
    if cfg.owner == GoalOwner {
      GoalReachesRunning(cfg);
    } else {
      RunOne(cfg, Submitted(cfg), Lock(true, true), []);
    }
  }

  // The receipt is left, ...
  lemma GoalReachesOffer(cfg: Config)
    requires cfg.owner == GoalOwner
    ensures Run(cfg, Submitted(cfg), [Lock(true, true), Offer]) == Goto(Submitted(cfg), Polling).(offered := true)
  {
    var s1 := Goto(Submitted(cfg), Polling);
    assert Next(cfg, Submitted(cfg), Lock(true, true)) == s1;
    RunOne(cfg, Submitted(cfg), Lock(true, true), [Offer]);
    RunOne(cfg, s1, Offer, []);
  }

  // ... and the wait activated and seen.
  lemma GoalReachesRunning(cfg: Config)
    requires cfg.owner == GoalOwner
    ensures Run(cfg, Submitted(cfg), [Lock(true, true), Offer, Own, Poll(GoalActive, false), Go]) ==
              State(Record(Live, Queued, None), None, Some(WritePhase(Running, Spawning)), false, true, Claimed, 0, 0, 0)
  {
    GoalReachesOffer(cfg);
    RunConcat(cfg, Submitted(cfg), [Lock(true, true), Offer], [Own, Poll(GoalActive, false), Go]);
    assert [Lock(true, true), Offer] + [Own, Poll(GoalActive, false), Go] == [Lock(true, true), Offer, Own, Poll(GoalActive, false), Go];
    OwnedReachesRunning(cfg, Goto(Submitted(cfg), Polling).(offered := true));
  }

  lemma OwnedReachesRunning(cfg: Config, s2: State)
    requires cfg.owner == GoalOwner && s2 == Goto(Submitted(cfg), Polling).(offered := true)
    ensures Run(cfg, s2, [Own, Poll(GoalActive, false), Go]) ==
              State(Record(Live, Queued, None), None, Some(WritePhase(Running, Spawning)), false, true, Claimed, 0, 0, 0)
  {
    var s3 := s2.(claim := Claimed);
    assert Next(cfg, s2, Own) == s3;
    var s4 := Goto(s3, WritePhase(Queued, WritePhase(Running, Spawning)));
    assert Next(cfg, s3, Poll(GoalActive, false)) == s4;
    RunOne(cfg, s2, Own, [Poll(GoalActive, false), Go]);
    RunOne(cfg, s3, Poll(GoalActive, false), [Go]);
    RunOne(cfg, s4, Go, []);
  }

  lemma ReachesProgram(cfg: Config)
    ensures Run(cfg, Submitted(cfg), ToProgram(cfg)) == Observed(cfg)
  {
    var first := if cfg.owner == GoalOwner then [Lock(true, true), Offer, Own, Poll(GoalActive, false), Go] else [Lock(true, true)];
    ReachesRunning(cfg);
    RunConcat(cfg, Submitted(cfg), first, [Go, Spawn, Go]);
    var s1 := Run(cfg, Submitted(cfg), first);
    var s2 := Next(cfg, s1, Go);
    var s3 := Next(cfg, s2, Spawn);
    RunOne(cfg, s1, Go, [Spawn, Go]);
    RunOne(cfg, s2, Spawn, [Go]);
    RunOne(cfg, s3, Go, []);
  }

  // The program exits, and its result is saved for delivery.
  const RESULT: seq<Choice> := [End(Exited, true), Go, Go]

  function Pended(cfg: Config): State {
    var r := Saved(Exited, Pending, 0, None);
    Observed(cfg).(record := Record(Live, Notifying, Some(r)), log := Some(r), pc := Some(Delivering(r, false)))
  }

  lemma ReachesDelivery(cfg: Config)
    requires cfg.client == Codex && cfg.notify
    ensures Run(cfg, Submitted(cfg), ToProgram(cfg) + RESULT) == Pended(cfg)
  {
    ReachesProgram(cfg);
    RunConcat(cfg, Submitted(cfg), ToProgram(cfg), RESULT);
    var s1 := Observed(cfg);
    var s2 := Next(cfg, s1, End(Exited, true));
    var s3 := Next(cfg, s2, Go);
    RunOne(cfg, s1, End(Exited, true), [Go, Go]);
    RunOne(cfg, s2, Go, [Go]);
    RunOne(cfg, s3, Go, []);
  }

  // An accepted but unconfirmed attempt, saved, and then a crash before the phase is advanced.
  const UNCONFIRMED_CRASH: seq<Choice> := ONE_LAUNCH + [Helper(ExitCode(EXIT_NOTIFY_UNCONFIRMED), true), Go, Go, Crash(false)]

  lemma CrashAfterUnconfirmed(cfg: Config, s: State)
    requires cfg.client == Codex && cfg.maxAttempts >= 2 && s == Pended(cfg)
    ensures var r := Saved(Exited, Unconfirmed, 1, None);
            Run(cfg, s, UNCONFIRMED_CRASH) ==
              s.(record := Record(Live, Notifying, Some(r)), log := Some(r), pc := None, launches := 1, accepted := 1)
  {
    var h := Helper(ExitCode(EXIT_NOTIFY_UNCONFIRMED), true);
    LaunchFollows(cfg, s, Saved(Exited, Pending, 0, None), false);
    RunConcat(cfg, s, ONE_LAUNCH, [h, Go, Go, Crash(false)]);
    RunFour(cfg, Run(cfg, s, ONE_LAUNCH), h, Go, Go, Crash(false));
  }

  // A concrete run with two accepted turns, for every watch that allows a second attempt.
  lemma TwoTurnsCanHappen(cfg: Config)
    requires cfg.client == Codex && cfg.notify && cfg.maxAttempts >= 2
    ensures Run(cfg, Submitted(cfg), (ToProgram(cfg) + RESULT) + (UNCONFIRMED_CRASH + (RESUME + (ONE_LAUNCH + [STARTED])))).accepted == 2
  {
    ReachesDelivery(cfg);
    var s := Run(cfg, Submitted(cfg), ToProgram(cfg) + RESULT);
    CrashAfterUnconfirmed(cfg, s);
    DeliveryIsResumed(cfg, Run(cfg, s, UNCONFIRMED_CRASH));
    RunConcat(cfg, s, UNCONFIRMED_CRASH, RESUME + (ONE_LAUNCH + [STARTED]));
    RunConcat(cfg, Submitted(cfg), ToProgram(cfg) + RESULT, UNCONFIRMED_CRASH + (RESUME + (ONE_LAUNCH + [STARTED])));
  }

  // The daemon goes down while the program runs.
  function Down(cfg: Config): seq<Choice> {
    ToProgram(cfg) + [Crash(false)]
  }

  lemma DownDuringProgram(cfg: Config)
    ensures Run(cfg, Submitted(cfg), Down(cfg)) == Observed(cfg).(pc := None)
  {
    ReachesProgram(cfg);
    RunConcat(cfg, Submitted(cfg), ToProgram(cfg), [Crash(false)]);
    RunOne(cfg, Observed(cfg), Crash(false), []);
  }

  // Any number of accepted announcements of the same failing watch, and as many launches, for
  // every watch that notifies and allows an attempt.
  lemma NoticesCanRepeat(cfg: Config, n: nat)
    requires cfg.client == Codex && cfg.notify && cfg.maxAttempts >= 1
    ensures var s := Run(cfg, Submitted(cfg), Down(cfg) + Announcements(n));
            s.accepted == n && s.launches == n
  {
    DownDuringProgram(cfg);
    AnnouncedAnyNumberOfTimes(cfg, Run(cfg, Submitted(cfg), Down(cfg)), n);
    RunConcat(cfg, Submitted(cfg), Down(cfg), Announcements(n));
  }

  // The helper announcing a failure is cut off by an exception, which is saved, and then a crash.
  const RAISED_THEN: seq<Choice> := [Raise(true), Go, Go, Crash(false)]
  const RAISED_CRASH: seq<Choice> := ONE_LAUNCH + RAISED_THEN

  lemma CrashAfterRaised(cfg: Config, s: State, r: Saved)
    requires cfg.client == Codex && cfg.maxAttempts >= 2 && Owns(cfg, s) && s.pc == Some(Delivering(r, true)) && !s.cancelled
    requires r.event == WatcherFailed && r.attempts == 0 && s.record.life == Live && s.record.phase == Notifying
    ensures var raised := r.(notice := Raised, attempts := 1);
            var t := Run(cfg, Run(cfg, s, ONE_LAUNCH), RAISED_THEN);
            IsDown(t) && Owns(cfg, t) && t.record == Record(Live, Notifying, Some(raised)) && t.accepted == s.accepted + 1
  {
    LaunchFollows(cfg, s, r, true);
    RaisedThenCrash(cfg, Run(cfg, s, ONE_LAUNCH), r.(notice := Attempting, attempts := 1));
  }

  lemma RaisedThenCrash(cfg: Config, s: State, r: Saved)
    requires s.pc == Some(Helping(r, true)) && s.record.phase == Notifying
    ensures var t := Run(cfg, s, RAISED_THEN);
            && t.pc.None? && t.record == s.record.(result := Some(r.(notice := Raised)))
            && t.accepted == s.accepted + 1 && t.claim == s.claim
  {
    RunFour(cfg, s, Raise(true), Go, Go, Crash(false));
  }

  // A plain restart announces such a failure again, without any further exception.
  lemma RaisedNoticeIsRepeated(cfg: Config)
    requires cfg.client == Codex && cfg.notify && cfg.maxAttempts >= 2
    ensures Run(cfg, Submitted(cfg), Down(cfg) + (FAIL + (RAISED_CRASH + (RESUME + (ONE_LAUNCH + [STARTED]))))).accepted == 2
  {
    var s := Run(cfg, Submitted(cfg), Down(cfg));
    DownDuringProgram(cfg);
    FailureReachesDelivery(cfg, s);
    var t := Run(cfg, s, FAIL);
    CrashAfterRaised(cfg, t, FailureResult(s.log).(notice := Pending, attempts := 0));
    RunConcat(cfg, t, ONE_LAUNCH, RAISED_THEN);
    DeliveryIsResumed(cfg, Run(cfg, t, RAISED_CRASH));
    RunConcat(cfg, t, RAISED_CRASH, RESUME + (ONE_LAUNCH + [STARTED]));
    RunConcat(cfg, s, FAIL, RAISED_CRASH + (RESUME + (ONE_LAUNCH + [STARTED])));
    RunConcat(cfg, Submitted(cfg), Down(cfg), FAIL + (RAISED_CRASH + (RESUME + (ONE_LAUNCH + [STARTED]))));
  }
}
