// What becomes of a watch, told from outside: how often a delivery is tried, how each way out
// of a phase ends, and what the record says then.
module WatcherCourse {
  import opened Base
  import opened Delivery
  import opened Watcher
  import opened WatcherSafety
  import opened WatcherReplay

  // ---- The end of a watch ------------------------------------------------------------------------

  // The watch is over, with this result; in between, nothing was started.
  predicate IsOver(s: State, t: State, result: Saved) {
    && t.pc.None? && t.record.life == Done && t.record.result == Some(result)
    && t.starts == s.starts && t.launches == s.launches && t.accepted == s.accepted
  }

  // A result that is not itself a failure waiting to be announced.
  predicate IsSettled(result: Saved) {
    result.event != WatcherFailed || (result.notice != Silent && result.notice != Pending)
  }

  const FINISH: seq<Choice> := [Go, Go, Go]

  lemma ClosingEnds(cfg: Config, s: State, result: Saved)
    requires s.pc == Some(Closing(result)) && s.record.life == Live && (IsSettled(result) || !cfg.notify)
    ensures IsOver(s, Run(cfg, s, FINISH), result) && Run(cfg, s, FINISH).log == LogAfter(s.log, result)
  {
    RunThree(cfg, s, Go, Go, Go);
  }

  // What remains once delivery is over: the goal may have to acknowledge, and the watch is closed.
  const ENDING: seq<Choice> := [Go, Ack(true), Go, Go] + FINISH

  predicate IsEnding(cfg: Config, pc: Pc, result: Saved, failing: bool) {
    if failing then pc == Finishing(result)
    else if cfg.owner == GoalOwner && IsDelivered(result.notice) then pc == WriteRecord(result, Some(AwaitingAck), AwaitingWake(result))
    else pc == WriteRecord(result, Some(Finalizing), Closing(result))
  }

  lemma EndingEnds(cfg: Config, s: State, result: Saved, failing: bool)
    requires s.pc.Some? && IsEnding(cfg, s.pc.value, result, failing) && s.record.life == Live
    requires failing || (IsSettled(result) && result.notice != NativePending)
    ensures IsOver(s, Run(cfg, s, ENDING), result)
  {
    RunConcat(cfg, s, [Go, Ack(true), Go, Go], FINISH);
    if failing {
      FinishingEnds(cfg, s, result);
    } else if cfg.owner == GoalOwner && IsDelivered(result.notice) {
      AcknowledgementEnds(cfg, s, result);
      ClosingEnds(cfg, Run(cfg, s, [Go, Ack(true), Go, Go]), result);
    } else {
      RecordingEnds(cfg, s, result);
    }
  }

  lemma {:induction false} DoneStays(cfg: Config, s: State, choices: seq<Choice>)
    requires s.pc.None? && s.record.life == Done && forall c :: c in choices ==> c.Go? || c.Ack?
    ensures Run(cfg, s, choices) == s
    decreases |choices|
  {
    if choices != [] {
      assert choices[0] in choices;
      DoneStays(cfg, s, choices[1..]);
    }
  }

  lemma FinishingEnds(cfg: Config, s: State, result: Saved)
    requires s.pc == Some(Finishing(result))
    ensures IsOver(s, Run(cfg, Run(cfg, s, [Go, Ack(true), Go, Go]), FINISH), result)
  {
    var t := Next(cfg, s, Go);
    RunOne(cfg, s, Go, [Ack(true), Go, Go]);
    DoneStays(cfg, t, [Ack(true), Go, Go]);
    DoneStays(cfg, t, FINISH);
  }

  lemma AcknowledgementEnds(cfg: Config, s: State, result: Saved)
    requires s.pc == Some(WriteRecord(result, Some(AwaitingAck), AwaitingWake(result))) && result.notice != NativePending
    ensures var t := Run(cfg, s, [Go, Ack(true), Go, Go]);
            && t.pc == Some(Closing(result)) && t.record.life == s.record.life
            && t.starts == s.starts && t.launches == s.launches && t.accepted == s.accepted
  {
    RunFour(cfg, s, Go, Ack(true), Go, Go);
  }

  lemma RecordingEnds(cfg: Config, s: State, result: Saved)
    requires s.pc == Some(WriteRecord(result, Some(Finalizing), Closing(result))) && s.record.life == Live && IsSettled(result)
    ensures IsOver(s, Run(cfg, Run(cfg, s, [Go, Ack(true), Go, Go]), FINISH), result)
  {
    RunFour(cfg, s, Go, Ack(true), Go, Go);
    var t := Run(cfg, s, [Go, Ack(true), Go, Go]);
    assert t.pc == Some(Finishing(result)) && t.starts == s.starts && t.launches == s.launches && t.accepted == s.accepted;
    var u := Next(cfg, t, Go);
    assert IsOver(s, u, result);
    RunOne(cfg, t, Go, [Go, Go]);
    DoneStays(cfg, u, [Go, Go]);
  }

  // ---- Delivery is tried as often as it may be ----------------------------------------------------

  // How one helper run went: its exit, and whether a turn was started.
  datatype Try = Try(exit: Exit, turn: bool)

  function Round(t: Try): seq<Choice> {
    ONE_LAUNCH + [Helper(t.exit, t.turn), Go, Go]
  }

  function Rounds(tries: seq<Try>): seq<Choice> {
    if tries == [] then [] else Round(tries[0]) + Rounds(tries[1..])
  }

  // The helper started a turn, or for Codex may have.
  predicate EndsDelivery(cfg: Config, exit: Exit) {
    || exit == ExitCode(EXIT_STARTED)
    || (cfg.client == Codex && (exit == HelperTimeout || exit == ExitCode(EXIT_NOTIFY_UNCONFIRMED)))
  }

  // In the delivery loop, neither cancelled nor given up by the owner.
  predicate IsDelivering(cfg: Config, s: State, r: Saved, failing: bool) {
    && cfg.client != Claude && Owns(cfg, s) && !s.cancelled && s.record.life == Live
    && s.pc == Some(Delivering(r, failing))
  }

  // What a try makes of the result.
  function Tally(cfg: Config, r: Saved, exit: Exit): Saved {
    r.(attempts := r.attempts + 1,
       notice := if exit == ExitCode(EXIT_STARTED) then Delivered else if EndsDelivery(cfg, exit) then Unconfirmed
                 else if r.attempts + 1 >= cfg.maxAttempts then Exhausted else Retrying)
  }

  lemma RoundTries(cfg: Config, s: State, r: Saved, failing: bool, t: Try)
    requires IsDelivering(cfg, s, r, failing) && r.attempts < cfg.maxAttempts && Possible(cfg, t.exit, t.turn)
    ensures var q := Run(cfg, s, Round(t));
            var told := Tally(cfg, r, t.exit);
            && q.launches == s.launches + 1 && q.starts == s.starts && q.accepted == s.accepted + Count(t.turn)
            && q.record == s.record.(result := Some(told)) && q.log == LogAfter(s.log, told)
            && (if EndsDelivery(cfg, t.exit) || r.attempts + 1 == cfg.maxAttempts
                then q.pc.Some? && IsEnding(cfg, q.pc.value, told, failing)
                else IsDelivering(cfg, q, told, failing))
  {
    LaunchFollows(cfg, s, r, failing);
    RunConcat(cfg, s, ONE_LAUNCH, [Helper(t.exit, t.turn), Go, Go]);
    HelperReturns(cfg, Run(cfg, s, ONE_LAUNCH), r, failing, t);
  }

  lemma HelperReturns(cfg: Config, s: State, r: Saved, failing: bool, t: Try)
    requires cfg.client != Claude && r.attempts < cfg.maxAttempts && Possible(cfg, t.exit, t.turn)
    requires s.pc == Some(Helping(r.(notice := Attempting, attempts := r.attempts + 1), failing))
    ensures var told := Tally(cfg, r, t.exit);
            var q := Run(cfg, s, [Helper(t.exit, t.turn), Go, Go]);
            && q == s.(pc := q.pc, record := s.record.(result := Some(told)), log := LogAfter(s.log, told), accepted := s.accepted + Count(t.turn))
            && q.pc.Some?
            && (if EndsDelivery(cfg, t.exit) || r.attempts + 1 == cfg.maxAttempts then IsEnding(cfg, q.pc.value, told, failing)
                else q.pc == Some(Delivering(told, failing)))
  {
    RunThree(cfg, s, Helper(t.exit, t.turn), Go, Go);
    assert HelperResult(cfg, r.(notice := Attempting, attempts := r.attempts + 1), t.exit) == Tally(cfg, r, t.exit);
  }

  // After n tries none of which ended the delivery.
  function AfterTries(r: Saved, n: nat): Saved {
    if n == 0 then r else r.(attempts := r.attempts + n, notice := Retrying)
  }

  predicate AllFail(cfg: Config, tries: seq<Try>) {
    forall i :: 0 <= i < |tries| ==> Possible(cfg, tries[i].exit, tries[i].turn) && !EndsDelivery(cfg, tries[i].exit)
  }

  // While attempts remain, every helper that started nothing is followed by another.
  lemma {:induction false} FailedTriesAreRepeated(cfg: Config, s: State, r: Saved, failing: bool, tries: seq<Try>)
    requires IsDelivering(cfg, s, r, failing) && AllFail(cfg, tries) && (tries == [] || r.attempts + |tries| < cfg.maxAttempts)
    ensures var q := Run(cfg, s, Rounds(tries));
            && IsDelivering(cfg, q, AfterTries(r, |tries|), failing) && q.launches == s.launches + |tries| && q.starts == s.starts
            && (cfg.client == Codex ==> q.accepted == s.accepted)
    decreases |tries|
  {
    if tries != [] {
      RoundTries(cfg, s, r, failing, tries[0]);
      var q := Run(cfg, s, Round(tries[0]));
      RunConcat(cfg, s, Round(tries[0]), Rounds(tries[1..]));
      FailedTriesAreRepeated(cfg, q, Tally(cfg, r, tries[0].exit), failing, tries[1..]);
    }
  }

  lemma LastTryEnds(cfg: Config, s: State, r: Saved, failing: bool, last: Try)
    requires IsDelivering(cfg, s, r, failing) && r.attempts < cfg.maxAttempts && Possible(cfg, last.exit, last.turn)
    requires EndsDelivery(cfg, last.exit) || r.attempts + 1 == cfg.maxAttempts
    ensures var q := Run(cfg, s, Round(last) + ENDING);
            && q.launches == s.launches + 1 && q.starts == s.starts && q.accepted == s.accepted + Count(last.turn)
            && q.pc.None? && q.record.life == Done && q.record.result == Some(Tally(cfg, r, last.exit))
  {
    RunConcat(cfg, s, Round(last), ENDING);
    RoundTries(cfg, s, r, failing, last);
    EndingEnds(cfg, Run(cfg, s, Round(last)), Tally(cfg, r, last.exit), failing);
  }

  // From the delivery of any result, with the owner waiting for it and no cancellation, helpers
  // are launched until one of them starts a turn, or for Codex may have, or the attempts are used
  // up; then the watch is closed, and its result says how that went.
  lemma {:induction false} DeliveryIsTriedOut(cfg: Config, s: State, r: Saved, failing: bool, tries: seq<Try>, last: Try)
    requires IsDelivering(cfg, s, r, failing) && AllFail(cfg, tries) && Possible(cfg, last.exit, last.turn)
    requires r.attempts + |tries| < cfg.maxAttempts
    requires EndsDelivery(cfg, last.exit) || r.attempts + |tries| + 1 == cfg.maxAttempts
    ensures var q := Run(cfg, s, Rounds(tries) + (Round(last) + ENDING));
            && q.launches == s.launches + |tries| + 1 && q.starts == s.starts
            && (cfg.client == Codex ==> q.accepted == s.accepted + Count(last.turn))
            && q.pc.None? && q.record.life == Done
            && q.record.result == Some(r.(attempts := r.attempts + |tries| + 1,
                 notice := if last.exit == ExitCode(EXIT_STARTED) then Delivered
                           else if EndsDelivery(cfg, last.exit) then Unconfirmed else Exhausted))
  {
    RunConcat(cfg, s, Rounds(tries), Round(last) + ENDING);
    FailedTriesAreRepeated(cfg, s, r, failing, tries);
    LastTryEnds(cfg, Run(cfg, s, Rounds(tries)), AfterTries(r, |tries|), failing, last);
  }

  function Busy(n: nat): seq<Try> {
    seq(n, i => Try(ExitCode(EXIT_BUSY), false))
  }

  // From submission: a session that stays busy is tried exactly as often as the limit says.
  lemma BusySessionIsTriedToTheLimit(cfg: Config)
    requires cfg.client == Codex && cfg.notify && cfg.maxAttempts > 0
    ensures var busy := Try(ExitCode(EXIT_BUSY), false);
            var q := Run(cfg, Submitted(cfg), (ToProgram(cfg) + RESULT) + (Rounds(Busy(cfg.maxAttempts - 1)) + (Round(busy) + ENDING)));
            && q.launches == cfg.maxAttempts && q.accepted == 0 && q.starts == 1
            && q.record.life == Done && q.record.result == Some(Saved(Exited, Exhausted, cfg.maxAttempts, None))
  {
    var busy := Try(ExitCode(EXIT_BUSY), false);
    var tries := Busy(cfg.maxAttempts - 1);
    ReachesDelivery(cfg);
    var s := Pended(cfg);
    RunConcat(cfg, Submitted(cfg), ToProgram(cfg) + RESULT, Rounds(tries) + (Round(busy) + ENDING));
    DeliveryIsTriedOut(cfg, s, Saved(Exited, Pending, 0, None), false, tries, busy);
  }

  // ---- How every phase is left --------------------------------------------------------------------

  // Cancelled on request, or not seen to be waited for by its owner.
  predicate IsWithdrawn(cfg: Config, s: State, seen: bool) {
    s.cancelled || !(cfg.owner == NoOwner || (seen && s.claim == Claimed))
  }

  // A result of the program is on record, in both places, and up for delivery.
  predicate IsPending(s: State, t: State, result: Saved) {
    t == s.(record := Record(s.record.life, Notifying, Some(result)), log := LogAfter(s.log, result),
            pc := Some(Delivering(result, false)), cancelled := t.cancelled)
  }

  // ... or is final.
  predicate IsFinal(s: State, t: State, result: Saved) {
    t == s.(record := Record(s.record.life, Finalizing, Some(result)), log := LogAfter(s.log, result),
            pc := Some(Closing(result)), cancelled := t.cancelled)
  }

  // A program is given up as cancelled only on request, or where an owner can give it up.
  lemma CancelledHasCause(cfg: Config, s: State, c: Choice)
    requires (c.End? || c.Skip?) && c.event == Cancelled && Next(cfg, s, c) != s
    ensures s.cancelled || cfg.owner != NoOwner
  {
  }

  // The end of the program, or of the attempt to start it: it is withdrawn, delivered or just recorded.
  lemma ProgramIsOver(cfg: Config, s: State, c: Choice, seen: bool)
    requires (s.pc == Some(Observing) && c.End? && c.event in {Exited, TimedOut, Cancelled} && c.current == seen)
          || (s.pc == Some(Spawning) && c.Skip? && c.event in {TimedOut, StartFailed, Cancelled} && c.current == seen)
    requires c.event == Cancelled ==> s.cancelled || cfg.owner != NoOwner
    ensures var t := Run(cfg, s, [c, Go, Go]);
            if IsWithdrawn(cfg, s, seen) then IsFinal(s, t, Saved(Cancelled, Silent, 0, None))
            else if cfg.notify then IsPending(s, t, Saved(c.event, Pending, 0, None))
            else IsFinal(s, t, Saved(c.event, Silent, 0, None))
  {
    RunThree(cfg, s, c, Go, Go);
    ConclusionSays(cfg, s, c.event, IsCurrent(cfg, s, seen));
    assert Next(cfg, s, c) == Goto(s, Concluded(cfg, s, c.event, None, Silent, 0, IsCurrent(cfg, s, seen)));
  }

  lemma ConclusionSays(cfg: Config, s: State, event: Happening, current: bool)
    ensures var t := s.(pc := Some(Concluded(cfg, s, event, None, Silent, 0, current)));
            var u := Next(cfg, Next(cfg, t, Go), Go);
            if s.cancelled || !current then IsFinal(s, u, Saved(Cancelled, Silent, 0, None))
            else if cfg.notify then IsPending(s, u, Saved(event, Pending, 0, None))
            else IsFinal(s, u, Saved(event, Silent, 0, None))
  {
  }

  // A program that was running when the daemon went down is not run again: what its log says, or
  // that it was interrupted, is withdrawn, delivered or recorded in the same way.
  lemma ProgramIsRecovered(cfg: Config, s: State, seen: bool)
    requires s.pc == Some(Locking) && (s.record.phase == Running || s.record.phase == Querying)
    ensures var found := if s.log.Some? then s.log.value else Saved(Interrupted, Silent, 0, None);
            var t := Run(cfg, s, [Lock(true, seen), Go, Go]);
            if IsWithdrawn(cfg, s, seen) then IsFinal(s, t, found.(event := Cancelled))
            else if cfg.notify then IsPending(s, t, found.(notice := Pending, attempts := 0))
            else IsFinal(s, t, found)
  {
    RunThree(cfg, s, Lock(true, seen), Go, Go);
  }

  // The program is started once the watch is queued.
  lemma QueuedProgramStarts(cfg: Config, s: State, seen: bool)
    requires s.pc == Some(Locking) && s.record.phase == Queued
    ensures Run(cfg, s, [Lock(true, seen), Go, Spawn, Go]) ==
              s.(record := s.record.(phase := Querying), pc := Some(Observing), starts := s.starts + 1)
  {
    RunFour(cfg, s, Lock(true, seen), Go, Spawn, Go);
  }

  // A saved result is taken up where it was left; a delivery that was being attempted is not
  // attempted again.
  lemma ResultIsTakenUp(cfg: Config, s: State, r: Saved, seen: bool)
    requires s.pc == Some(Locking) && s.record.result == Some(r) && s.record.phase in {Notifying, AwaitingAck, Finalizing}
    ensures var t := Run(cfg, s, [Lock(true, seen), Go, Go]);
            s.record.phase == Notifying && r.notice == Attempting ==> IsFinal(s, t, r.(notice := Unconfirmed))
    ensures var t := Next(cfg, s, Lock(true, seen));
            && (s.record.phase == AwaitingAck ==> t == s.(pc := Some(AwaitingWake(r))))
            && (s.record.phase == Finalizing ==> t == s.(pc := Some(Closing(r))))
            && (s.record.phase == Notifying && r.notice in {Delivered, NativePending} ==>
                 t.pc.Some? && t == s.(pc := t.pc) && IsEnding(cfg, t.pc.value, r, false))
            && (s.record.phase == Notifying && r.notice !in {Attempting, Delivered, NativePending} ==>
                 t == s.(pc := Some(Delivering(r, false))))
  {
    RunThree(cfg, s, Lock(true, seen), Go, Go);
  }

  // While the wait is not active the task goes on polling, until it is cancelled, the wait is gone,
  // or the time is over; then the watch ends without a program.
  lemma ActivationEnds(cfg: Config, s: State, phase: GoalPhase, expired: bool)
    requires s.pc == Some(Polling) && s.offered && s.record.life == Live
    ensures !s.cancelled && phase == GoalPrepared && !expired ==> Next(cfg, s, Poll(phase, expired)) == s
    ensures s.cancelled || phase == GoalInvalid || (phase == GoalPrepared && expired) ==>
      IsOver(s, Run(cfg, s, [Poll(phase, expired)] + [Go, Go, Go, Go]), Saved(ActivationEnded, Silent, 0, None))
  {
    if s.cancelled || phase == GoalInvalid || (phase == GoalPrepared && expired) {
      RunOne(cfg, s, Poll(phase, expired), [Go, Go, Go, Go]);
      var t := Next(cfg, s, Poll(phase, expired));
      RunFour(cfg, t, Go, Go, Go, Go);
    }
  }

  // Another task holds the lock: this one ends, and nothing but its record changes.
  lemma SecondTaskEnds(cfg: Config, s: State, seen: bool)
    requires s.pc == Some(Locking) && s.record.life == Live
    ensures var r := Saved(AlreadyWatching, Silent, 0, None);
            Run(cfg, s, [Lock(false, seen), Go, Go]) == s.(record := Record(Done, s.record.phase, Some(r)), pc := None)
  {
    RunThree(cfg, s, Lock(false, seen), Go, Go);
  }

  // What the watcher cannot launch, or must not, is recorded as such and closed.
  lemma NothingIsLaunched(cfg: Config, s: State, r: Saved, failing: bool, c: Choice)
    requires s.record.life == Live && cfg.client != Claude && r.notice !in {Delivered, NativePending}
    requires c.Attempt? && r.attempts >= cfg.maxAttempts ==> failing || IsSettled(r)
    requires (s.pc == Some(Launching(r, failing)) && c.Command? && c.outcome != CommandReady)
          || (s.pc == Some(Delivering(r, failing)) && c.Attempt? && (r.attempts >= cfg.maxAttempts || IsWithdrawn(cfg, s, c.current)))
    ensures var told := if c.Command? then r.(notice := if c.outcome == CommandUnavailable then Unavailable else NotLaunched)
                        else if r.attempts >= cfg.maxAttempts then r else r.(notice := Withdrawn);
            IsOver(s, Run(cfg, s, (if c.Command? then [c, Go, Go] else [c]) + ENDING), told)
  {
    if c.Command? {
      RunConcat(cfg, s, [c, Go, Go], ENDING);
      RunThree(cfg, s, c, Go, Go);
      var told := r.(notice := if c.outcome == CommandUnavailable then Unavailable else NotLaunched);
      EndingEnds(cfg, Run(cfg, s, [c, Go, Go]), told, failing);
    } else {
      RunOne(cfg, s, c, ENDING);
      var told := if r.attempts >= cfg.maxAttempts then r else r.(notice := Withdrawn);
      EndingEnds(cfg, Next(cfg, s, c), told, failing);
    }
  }

  // A Claude watch launches nothing: its result waits for the native session. With a goal, the wait
  // for the acknowledgement decides what is recorded in the end.
  lemma NativeResultWaits(cfg: Config, s: State, r: Saved, seen: bool, acked: bool)
    requires cfg.client == Claude && s.pc == Some(Delivering(r, false)) && s.record.life == Live
    ensures var native := r.(notice := NativePending, attempts := 0);
            var t := Run(cfg, s, [Attempt(seen), Go, Go]);
            && t.record == s.record.(result := Some(native)) && t.log == LogAfter(s.log, native)
            && t.launches == s.launches && t.pc.Some? && IsEnding(cfg, t.pc.value, native, false)
            && (cfg.owner == GoalOwner ==>
                 var told := if IsCurrent(cfg, s, acked) then native.(notice := if s.cancelled then Withdrawn else Unconfirmed) else native;
                 var u := Run(cfg, t, [Go, Ack(acked), Go, Go]);
                 u.record == Record(Live, Finalizing, Some(told)) && u.pc == Some(Closing(told)) && u.launches == s.launches)
  {
    RunThree(cfg, s, Attempt(seen), Go, Go);
    var t := Run(cfg, s, [Attempt(seen), Go, Go]);
    RunFour(cfg, t, Go, Ack(acked), Go, Go);
  }

  // An exception outside a failure notice: the failure refers to a logged result, which stays in the
  // log, or is logged itself. It is announced unless the log shows an attempt to deliver, whose
  // outcome is then recorded with it.
  lemma ExceptionIsRecorded(cfg: Config, s: State, turn: bool)
    requires s.pc.Some? && CanRaise(s.pc.value) && s.record.life == Live
    requires !((s.pc.value.Delivering? || s.pc.value.Launching? || s.pc.value.Helping?) && s.pc.value.failing)
    ensures var logged := s.log.Some? && s.log.value.event != WatcherFailed;
            var failure := Saved(WatcherFailed, Silent, 0, if logged then Some((s.log.value.notice, s.log.value.attempts)) else None);
            var t := Run(cfg, s, [Raise(turn), Go, Go, Go]);
            && t.log == (if logged then s.log else Some(failure)) && t.launches == s.launches && t.starts == s.starts
            && (if !cfg.notify then t.pc.None? && t.record == Record(Done, Finalizing, Some(failure))
                else if logged && s.log.value.attempts > 0 then
                  var told := if s.log.value.notice in {Attempting, Retrying} then Unconfirmed else s.log.value.notice;
                  t.pc.None? && t.record == Record(Done, Finalizing, Some(failure.(notice := told, attempts := s.log.value.attempts)))
                else t.pc == Some(Delivering(failure.(notice := Pending), true)) && t.record == s.record.(phase := Notifying))
  {
    RunFour(cfg, s, Raise(turn), Go, Go, Go);
  }

  // ---- The owner -----------------------------------------------------------------------------------

  // An owner comes to wait for the watch once, with the receipt left and the lock held, and only by
  // its own step does it stop; one that let go stays away.
  lemma OwnerComesOnce(cfg: Config, s: State, c: Choice)
    ensures s.claim != Claimed && Next(cfg, s, c).claim == Claimed ==>
      c.Own? && s.claim == Unclaimed && s.offered && s.pc.Some? && HoldsLock(s.pc.value)
    ensures s.claim == Claimed && Next(cfg, s, c).claim != Claimed ==> c.Release? && Next(cfg, s, c).claim == Released
    ensures s.claim == Released ==> Next(cfg, s, c).claim == Released
    ensures !s.offered && Next(cfg, s, c).offered ==> c.Offer? && s.pc == Some(Polling)
    ensures s.offered ==> Next(cfg, s, c).offered
  {
  }

  // ---- Dropped watches ------------------------------------------------------------------------------

  predicate LaunchFree(pc: Pc) {
    match pc
    case Launching(_, _) => false
    case WritePhase(_, next) => LaunchFree(next)
    case WriteLog(_, _, next) => LaunchFree(next)
    case WriteRecord(_, _, next) => LaunchFree(next)
    case _ => true
  }

  predicate IsDropped(s: State) {
    s.record.life != Live && (s.pc.Some? ==> s.cancelled && LaunchFree(s.pc.value))
  }

  lemma DeliveryEndIsFree(cfg: Config, r: Saved, failing: bool)
    ensures LaunchFree(Undelivered(r, failing)) && LaunchFree(Accepted(cfg, r, failing)) && LaunchFree(Delivering(r, failing))
  {
  }

  lemma WriteIsFree(r: Saved, to: Option<Phase>, next: Pc)
    requires LaunchFree(next)
    ensures LaunchFree(WriteLog(r, to, next))
  {
  }

  lemma ResumptionIsFree(cfg: Config, s: State, current: bool)
    ensures LaunchFree(Resumed(cfg, s, current))
  {
    var next := Resumed(cfg, s, current);
    if s.record.result.Some? {
      DeliveryEndIsFree(cfg, s.record.result.value, false);
    }
    if next.WriteLog? {
      DeliveryEndIsFree(cfg, next.result, false);
      WriteIsFree(next.result, next.to, next.next);
    } else if next.WritePhase? {
      assert LaunchFree(next.next);
    }
  }

  lemma ConclusionIsFree(cfg: Config, s: State, event: Happening, current: bool)
    ensures LaunchFree(Concluded(cfg, s, event, None, Silent, 0, current))
  {
    var next := Concluded(cfg, s, event, None, Silent, 0, current);
    WriteIsFree(next.result, next.to, next.next);
  }

  lemma DeliveryStaysDropped(cfg: Config, s: State, c: Choice)
    requires IsDropped(s) && s.pc.Some? && (c.Attempt? || c.Command? || c.Helper? || c.Raise?)
    ensures IsDropped(Next(cfg, s, c)) && Next(cfg, s, c).launches == s.launches
  {
    var after := Next(cfg, s, c).pc.value;
    if after.WriteLog? && after != s.pc.value {
      DeliveryEndIsFree(cfg, after.result, s.pc.value.failing);
      WriteIsFree(after.result, after.to, after.next);
    } else if after.WriteRecord? && after != s.pc.value {
      DeliveryEndIsFree(cfg, after.result, s.pc.value.failing);
    }
  }

  lemma StepStaysDropped(cfg: Config, s: State, c: Choice)
    requires IsDropped(s)
    ensures IsDropped(Next(cfg, s, c)) && Next(cfg, s, c).launches == s.launches
  {
    if s.pc.Some? {
      match c {
        case Lock(_, current) => ResumptionIsFree(cfg, s, IsCurrent(cfg, s, current));
        case Attempt(_) => DeliveryStaysDropped(cfg, s, c);
        case Command(_) => DeliveryStaysDropped(cfg, s, c);
        case Helper(_, _) => DeliveryStaysDropped(cfg, s, c);
        case Raise(_) => DeliveryStaysDropped(cfg, s, c);
        case Poll(_, _) => WriteIsFree(Saved(ActivationEnded, Silent, 0, None), Some(Finalizing), Ending(Saved(ActivationEnded, Silent, 0, None)));
        case Skip(event, current) => ConclusionIsFree(cfg, s, event, IsCurrent(cfg, s, current));
        case End(event, current) => ConclusionIsFree(cfg, s, event, IsCurrent(cfg, s, current));
        case Ack(current) =>
          if s.pc.value.AwaitingWake? {
            var r := AckResult(s, s.pc.value.result, IsCurrent(cfg, s, current));
            WriteIsFree(r, Some(Finalizing), Closing(r));
          }
        case Spawn => assert LaunchFree(WritePhase(Querying, Observing));
        case _ =>
      }
    }
  }

  // A watch that is dropped while its task waits is never delivered any more, neither by that task
  // nor after a restart, and never active again.
  lemma {:induction false} DroppedWatchIsSilent(cfg: Config, s: State, choices: seq<Choice>)
    requires IsDropped(s)
    ensures Run(cfg, s, choices).launches == s.launches && Run(cfg, s, choices).record.life != Live
    decreases |choices|
  {
    if choices != [] {
      StepStaysDropped(cfg, s, choices[0]);
      DroppedWatchIsSilent(cfg, Next(cfg, s, choices[0]), choices[1..]);
    }
  }

  lemma DropSilences(cfg: Config, s: State, choices: seq<Choice>)
    requires s.pc.Some? && AtAwait(s.pc.value) && s.record.life == Live
    ensures Run(cfg, Next(cfg, s, Drop), choices).launches == s.launches
    ensures Run(cfg, Next(cfg, s, Drop), choices).record.life != Live
  {
    DroppedWatchIsSilent(cfg, Next(cfg, s, Drop), choices);
  }

  // ---- The lock -------------------------------------------------------------------------------------

  // How a step that goes from one place to another may change who holds the lock.
  predicate LockMoves(pc: Pc, after: Pc, locks: bool) {
    && (HoldsLock(pc) && !after.Ending? ==> HoldsLock(after))
    && (!HoldsLock(pc) && HoldsLock(after) ==> locks)
    && (locks ==> HoldsLock(after))
    && (after.Ending? || after.Locking? ==> !HoldsLock(after))
  }

  lemma DeliveryEndLock(cfg: Config, r: Saved, failing: bool)
    ensures HoldsLock(Undelivered(r, failing)) == !failing && !Undelivered(r, failing).Ending?
    ensures HoldsLock(Accepted(cfg, r, failing)) == !failing && !Accepted(cfg, r, failing).Ending?
  {
  }

  lemma WriteKeepsLock(r: Saved, to: Option<Phase>, next: Pc)
    requires !next.Ending?
    ensures HoldsLock(WriteLog(r, to, next)) == HoldsLock(next)
  {
  }

  lemma DeliveryKeepsLock(cfg: Config, s: State, c: Choice)
    requires s.pc.Some? && (c.Attempt? || c.Command? || c.Helper?)
    ensures Next(cfg, s, c).pc.Some? && LockMoves(s.pc.value, Next(cfg, s, c).pc.value, false)
  {
    var after := Next(cfg, s, c).pc.value;
    if after != s.pc.value {
      var failing := s.pc.value.failing;
      if after.WriteLog? {
        DeliveryEndLock(cfg, after.result, failing);
        assert !after.next.Ending? && HoldsLock(after.next) == !failing;
        WriteKeepsLock(after.result, after.to, after.next);
      } else if after.WriteRecord? {
        DeliveryEndLock(cfg, after.result, failing);
      }
    }
  }

  lemma RaiseKeepsLock(cfg: Config, s: State, turn: bool)
    requires s.pc.Some?
    ensures Next(cfg, s, Raise(turn)).pc.Some? && LockMoves(s.pc.value, Next(cfg, s, Raise(turn)).pc.value, false)
  {
    var pc := s.pc.value;
    if (pc.Delivering? || pc.Launching? || pc.Helping?) && pc.failing {
      WriteKeepsLock(pc.result.(notice := Raised), None, Finishing(pc.result.(notice := Raised)));
    }
  }

  lemma ProceedKeepsLock(cfg: Config, s: State)
    requires s.pc.Some? && Proceed(cfg, s).pc.Some?
    ensures LockMoves(s.pc.value, Proceed(cfg, s).pc.value, false)
  {
    if s.pc.value.Ending? {
      var announced := Delivering(s.pc.value.result.(notice := Pending, attempts := 0), true);
      assert !HoldsLock(WritePhase(Notifying, announced));
    }
  }

  // The lock is taken by the step that locks, and by no other; once taken, it is held until the
  // task is about to end, or goes down.
  lemma LockIsKept(cfg: Config, s: State, c: Choice)
    requires s.pc.Some? && Next(cfg, s, c).pc.Some?
    ensures LockMoves(s.pc.value, Next(cfg, s, c).pc.value, s.pc.value.Locking? && c.Lock? && c.held)
  {
    if c.Attempt? || c.Command? || c.Helper? {
      DeliveryKeepsLock(cfg, s, c);
    } else if c.Raise? {
      RaiseKeepsLock(cfg, s, c.turn);
    } else if c.Go? {
      ProceedKeepsLock(cfg, s);
    }
  }
}
