// The task that carries one watch, written as it runs: it updates its record step by step,
// saving as it goes, and every step it takes is a step of the crash machine.
module WatchTask {
  import opened Base
  import opened Delivery
  import opened Watcher

  datatype Answer = Yes | No | Threw

  class Task {
    const cfg: Config
    var record: Record
    var log: Option<Saved>
    var cancelled: bool
    // The startup receipt, and what the owner's file says.
    var offered: bool
    var claim: Claim
    // The machine this task follows, where it started, and the choices made since.
    ghost const origin: State
    ghost var machine: State
    ghost var trace: seq<Choice>

    // Restarted from the registry and the log.
    constructor (cfg: Config, record: Record, log: Option<Saved>, offered: bool, claim: Claim, ghost down: State)
      requires down.pc.None? && down.record == record && record.life == Live && down.log == log
      requires down.offered == offered && down.claim == claim
      ensures this.cfg == cfg && origin == down && Tracks() && machine.pc == Some(Locking)
    {
      this.cfg, this.record, this.log, this.cancelled := cfg, record, log, false;
      this.offered, this.claim := offered, claim;
      origin, machine, trace := down, Next(cfg, down, Restart), [Restart];
      new;
      assert Run(cfg, down, []) == down;
      RunStep(cfg, down, [], Restart);
      assert [] + [Restart] == [Restart];
    }

    // What is in memory and on disk is what the machine says, and the machine got there by
    // the choices made so far.
    ghost predicate Tracks()
      reads this
    {
      && machine == Run(cfg, origin, trace)
      && machine.record == record && machine.log == log && machine.cancelled == cancelled
      && machine.offered == offered && machine.claim == claim
    }

    ghost method Take(c: Choice)
      requires machine == Run(cfg, origin, trace)
      modifies `machine, `trace
      ensures machine == Run(cfg, origin, trace) && machine == Next(cfg, old(machine), c)
      ensures trace == old(trace) + [c]
    {
      RunStep(cfg, origin, trace, c);
      machine := Next(cfg, machine, c);
      trace := trace + [c];
    }

    // `_update_record(phase=...)`
    method UpdatePhase(phase: Phase)
      requires Tracks() && machine.pc.Some? && machine.pc.value.WritePhase? && machine.pc.value.phase == phase
      modifies this
      ensures Tracks() && machine.pc == Some(old(machine).pc.value.next) && record == old(record).(phase := phase)
      ensures log == old(log) && cancelled == old(cancelled)
    {
      record := record.(phase := phase);
      Take(Go);
    }

    method WriteResultLog(result: Saved)
      requires Tracks()
      modifies `log
      ensures log == LogAfter(old(log), result)
    {
      if result.event == WatcherFailed && result.durable.Some? {
        return;
      }
      log := Some(result);
    }

    // `_persist_result`: the log first, then the registry.
    method PersistResult(result: Saved, to: Option<Phase>)
      requires Tracks() && machine.pc.Some? && machine.pc.value.WriteLog?
      requires machine.pc.value.result == result && machine.pc.value.to == to
      modifies this
      ensures Tracks() && machine.pc == Some(old(machine).pc.value.next)
      ensures record == old(record).(result := Some(result), phase := PhaseAfter(old(record), to))
      ensures cancelled == old(cancelled)
    {
      WriteResultLog(result);
      Take(Go);
      UpdateRecord(result, to);
    }

    method UpdateRecord(result: Saved, to: Option<Phase>)
      requires Tracks() && machine.pc.Some? && machine.pc.value.WriteRecord?
      requires machine.pc.value.result == result && machine.pc.value.to == to
      modifies this
      ensures Tracks() && machine.pc == Some(old(machine).pc.value.next)
      ensures record == old(record).(result := Some(result), phase := PhaseAfter(old(record), to))
      ensures cancelled == old(cancelled)
    {
      record := record.(result := Some(result));
      if to.Some? {
        record := record.(phase := to.value);
      }
      Take(Go);
    }

    // The owner's file may change meanwhile: the goal activates the wait, or the owner lets go.
    method OwnerActs(locked: bool)
      requires Tracks() && (locked ==> machine.pc.Some? && HoldsLock(machine.pc.value))
      modifies `claim, `machine, `trace
      ensures Tracks() && machine == old(machine).(claim := claim)
    {
      if * {
        if cfg.owner != NoOwner {
          claim := Released;
        }
        Take(Release);
      } else if * {
        if locked && cfg.owner == GoalOwner && claim == Unclaimed && offered {
          claim := Claimed;
          Take(Own);
        }
      }
    }

    // `watch_is_current`, read from the owner's file, if it has one and it can be read.
    method ReadCurrent() returns (seen: bool, current: bool)
      requires Tracks()
      ensures current == IsCurrent(cfg, machine, seen)
    {
      seen := *;
      current := cfg.owner == NoOwner || (seen && claim == Claimed);
    }

    // `goal_wait_phase`, as far as the task can tell its answers apart.
    method ReadGoal() returns (phase: GoalPhase)
      requires Tracks()
      ensures phase == GoalActive ==> machine.claim == Claimed
    {
      var readable: bool := *;
      return if !readable || claim == Released then GoalInvalid else if claim == Claimed then GoalActive else GoalPrepared;
    }

    // While the task awaits something, the owner may act and another request may cancel the watch.
    method Await(locked: bool)
      requires Tracks() && machine.pc.Some? && AtAwait(machine.pc.value) && (locked ==> HoldsLock(machine.pc.value))
      modifies this
      ensures Tracks() && machine.pc == old(machine.pc) && offered == old(offered)
      ensures record.phase == old(record.phase) && record.result == old(record.result) && log == old(log)
    {
      OwnerActs(locked);
      if * {
        if record.life == Live {
          record := record.(life := Dropped);
          cancelled := true;
        }
        Take(Drop);
      }
    }

    // `_activate_goal_wait`: poll the goal until it answers or the deadline passes.
    method ActivateGoalWait(polls: nat) returns (active: Answer)
      requires Tracks() && machine.pc == Some(Polling)
      modifies this
      ensures Tracks() && record.phase == old(record.phase)
      ensures active == Threw ==> machine.pc == Some(Raising(true))
      ensures active == Yes ==> machine.pc == Some(WritePhase(Queued, WritePhase(Running, Spawning)))
      ensures active == No ==>
        var result := Saved(ActivationEnded, Silent, 0, None);
        machine.pc == Some(WriteLog(result, Some(Finalizing), Ending(result)))
    {
      if * {
        Take(Raise(false));
        return Threw;
      }
      offered := true;
      Take(Choice.Offer);
      var left := polls;
      while true
        invariant Tracks() && machine.pc == Some(Polling) && record.phase == old(record.phase) && offered
        decreases left
      {
        var answered: bool;
        answered, active := PollGoal(left == 0);
        if answered {
          return;
        }
        left := left - 1;
        Await(true);
      }
    }

    // One look at the goal; on the last one there is no waiting any more.
    method PollGoal(last: bool) returns (answered: bool, active: Answer)
      requires Tracks() && machine.pc == Some(Polling) && offered
      modifies `machine, `trace
      ensures Tracks() && (last ==> answered)
      ensures !answered ==> machine.pc == Some(Polling)
      ensures answered && active == Threw ==> machine.pc == Some(Raising(true))
      ensures answered && active == Yes ==> machine.pc == Some(WritePhase(Queued, WritePhase(Running, Spawning)))
      ensures answered && active == No ==>
        var result := Saved(ActivationEnded, Silent, 0, None);
        machine.pc == Some(WriteLog(result, Some(Finalizing), Ending(result)))
    {
      if * {
        Take(Raise(false));
        return true, Threw;
      }
      var phase := ReadGoal();
      if cancelled {
        phase := GoalInvalid;
      }
      if phase == GoalPrepared && !last {
        return false, No;
      }
      Take(Poll(phase, last));
      return true, if phase == GoalActive then Yes else No;
    }

    // An exception outside a failure notice.
    method Fail()
      requires Tracks() && machine.pc.Some? && CanRaise(machine.pc.value)
      requires !((machine.pc.value.Delivering? || machine.pc.value.Launching? || machine.pc.value.Helping?) && machine.pc.value.failing)
      modifies `machine, `trace
      ensures Tracks() && machine.pc == Some(Raising(!old(machine.pc.value.Locking?)))
    {
      Take(Raise(false));
    }

    // The program did not run: too late, cancelled, or it could not be started.
    method SkipProgram() returns (result: Saved, to: Phase)
      requires Tracks() && machine.pc == Some(Spawning)
      modifies this
      ensures Tracks() && Follows(result, to)
    {
      var seen, current := ReadCurrent();
      var event: Happening := *;
      if event != TimedOut && event != StartFailed {
        event := if cancelled || cfg.owner != NoOwner then Cancelled else TimedOut;
      }
      result, to := Conclude(event, current);
      Take(Skip(event, seen));
    }

    // The program is over.
    method ObserveProgram() returns (result: Saved, to: Phase)
      requires Tracks() && machine.pc == Some(Observing)
      modifies this
      ensures Tracks() && Follows(result, to)
    {
      var seen, current := ReadCurrent();
      var event: Happening := *;
      if event != TimedOut && event != Exited {
        event := if cancelled || cfg.owner != NoOwner then Cancelled else Exited;
      }
      result, to := Conclude(event, current);
      Take(End(event, seen));
    }

    // `_execute_program`; the outcome says how the task goes on.
    method ExecuteProgram() returns (result: Saved, to: Phase, answer: Answer)
      requires Tracks() && machine.pc == Some(Spawning)
      modifies this
      ensures Tracks()
      ensures answer == Threw ==> machine.pc == Some(Raising(true))
      ensures answer != Threw ==> Follows(result, to)
    {
      result, to, answer := Saved(Interrupted, Silent, 0, None), Finalizing, Threw;
      Await(true);
      if * {
        Fail();
        return;
      }
      if * {
        result, to := SkipProgram();
        answer := Yes;
        return;
      }
      Take(Spawn);
      UpdatePhase(Querying);
      Await(true);
      if * {
        Fail();
        return;
      }
      result, to := ObserveProgram();
      answer := Yes;
    }

    // The result is about to be saved, and delivered or closed after that.
    ghost predicate Follows(result: Saved, to: Phase)
      reads this
    {
      (to == Finalizing || (to == Notifying && result.notice == Pending)) && machine.pc == Some(WriteLog(result, Some(to), Following(result, to)))
    }

    // Cancellation and lost ownership override what the program did; otherwise delivery is due.
    method Conclude(event: Happening, current: bool) returns (result: Saved, to: Phase)
      requires Tracks()
      ensures to == Finalizing || (to == Notifying && result.notice == Pending)
      ensures Concluded(cfg, machine, event, None, Silent, 0, current) == WriteLog(result, Some(to), Following(result, to))
    {
      result := Saved(event, Silent, 0, None);
      var withdrawn := cancelled || !current;
      if withdrawn {
        result := result.(event := Cancelled);
      }
      if cfg.notify && !withdrawn {
        result := result.(notice := Pending, attempts := 0);
        to := Notifying;
      } else {
        to := Finalizing;
      }
    }

    // The outcome of one helper run, from the environment; a started turn shows in it.
    method RunHelper(result: Saved, failing: bool) returns (exit: Exit, threw: bool)
      requires Tracks() && machine.pc == Some(Helping(result, failing))
      modifies this
      ensures Tracks() && record.phase == old(record.phase)
      ensures machine.pc == Some(if threw then AfterThrow(result, failing)
                         else AfterHelper(cfg, HelperResult(cfg, result, exit), failing))
    {
      exit := *;
      Await(!failing);
      if * {
        ghost var turn: bool := *;
        Take(Raise(turn));
        threw := true;
      } else {
        ghost var turn: bool := *;
        if !Possible(cfg, exit, turn) {
          turn := false;
        }
        Take(Helper(exit, turn));
        threw := false;
      }
    }

    // One attempt, already saved as such: get the command, run it, save what came of it.
    method LaunchOnce(attempted: Saved, failing: bool) returns (result: Saved, delivered: Answer)
      requires Tracks() && machine.pc == Some(Launching(attempted, failing)) && attempted.attempts <= cfg.maxAttempts
      modifies this
      ensures Tracks() && result.attempts == attempted.attempts
      ensures delivered == Yes ==> machine.pc == Some(Accepted(cfg, result, failing))
      ensures delivered == No && result.notice != Retrying ==> machine.pc == Some(Undelivered(result, failing))
      ensures delivered == No && result.notice == Retrying ==> machine.pc == Some(Delivering(result, failing))
      ensures delivered == Threw ==> machine.pc == Some(AfterThrow(result, failing))
    {
      result := attempted;
      if * {
        Take(Raise(false));
        delivered := Threw;
        return;
      }
      var outcome: Command := *;
      Take(Choice.Command(outcome));
      if outcome != CommandReady {
        result := result.(notice := if outcome == CommandUnavailable then Unavailable else NotLaunched);
        PersistResult(result, None);
        delivered := No;
        return;
      }
      var exit, threw := RunHelper(result, failing);
      if threw {
        delivered := Threw;
        return;
      }
      result := Classify(result, exit);
      PersistResult(result, None);
      delivered := if result.notice == Delivered then Yes else No;
    }

    // What `_deliver` reads from the outcome of a helper run.
    method Classify(attempted: Saved, exit: Exit) returns (result: Saved)
      requires attempted.attempts <= cfg.maxAttempts
      ensures result == HelperResult(cfg, attempted, exit)
    {
      if cfg.client == Codex && (exit.HelperTimeout? || exit.code == EXIT_NOTIFY_UNCONFIRMED) {
        return attempted.(notice := Unconfirmed);
      }
      if exit.ExitCode? && exit.code == EXIT_STARTED {
        return attempted.(notice := Delivered);
      }
      var exhausted := attempted.attempts == cfg.maxAttempts;
      return attempted.(notice := if exhausted then Exhausted else Retrying);
    }

    // One round of the delivery loop.
    method TryOnce(pending: Saved, failing: bool) returns (result: Saved, delivered: Answer)
      requires Tracks() && machine.pc == Some(Delivering(pending, failing))
      requires cfg.client != Claude && pending.attempts < cfg.maxAttempts
      modifies this
      ensures Tracks()
      ensures delivered == Yes ==> machine.pc == Some(Accepted(cfg, result, failing))
      ensures delivered == No && result.notice != Retrying ==> machine.pc == Some(Undelivered(result, failing))
      ensures delivered == No && result.notice == Retrying ==>
        machine.pc == Some(Delivering(result, failing)) && result.attempts == pending.attempts + 1
      ensures delivered == Threw ==> machine.pc == Some(AfterThrow(result, failing))
    {
      result := pending;
      if * {
        Take(Raise(false));
        delivered := Threw;
        return;
      }
      var seen, current := ReadCurrent();
      Take(Attempt(seen));
      if cancelled || !current {
        result := result.(notice := Withdrawn);
        delivered := No;
        return;
      }
      result := result.(notice := Attempting, attempts := result.attempts + 1);
      PersistResult(result, None);
      result, delivered := LaunchOnce(result, failing);
    }

    // Claude resumes by itself: the result is only marked as available.
    method Offer(pending: Saved, failing: bool) returns (result: Saved)
      requires Tracks() && machine.pc == Some(Delivering(pending, failing)) && cfg.client == Claude
      modifies this
      ensures Tracks() && machine.pc == Some(Accepted(cfg, result, failing))
    {
      result := pending.(notice := NativePending, attempts := 0);
      Take(Attempt(true));
      PersistResult(result, None);
    }

    // `_deliver`
    method Deliver(pending: Saved, failing: bool) returns (result: Saved, delivered: Answer)
      requires Tracks() && machine.pc == Some(Delivering(pending, failing))
      modifies this
      ensures Tracks()
      ensures delivered == Yes ==> machine.pc == Some(Accepted(cfg, result, failing))
      ensures delivered == No ==> machine.pc == Some(Undelivered(result, failing))
      ensures delivered == Threw ==> machine.pc == Some(AfterThrow(result, failing))
    {
      result, delivered := pending, No;
      if cfg.client == Claude {
        result := Offer(pending, failing);
        delivered := Yes;
        return;
      }
      var attempt := result.attempts + 1;
      while attempt <= cfg.maxAttempts
        invariant Tracks() && machine.pc == Some(Delivering(result, failing)) && attempt == result.attempts + 1
        decreases cfg.maxAttempts + 1 - attempt
      {
        result, delivered := TryOnce(result, failing);
        if delivered != No || result.notice != Retrying {
          return;
        }
        Await(!failing);
        attempt := attempt + 1;
      }
      Take(Attempt(true));
      delivered := No;
    }

    // The activation part of `_watch`.
    method Activate(polls: nat) returns (result: Saved, active: Answer)
      requires Tracks() && machine.pc == Some(Polling)
      modifies this
      ensures Tracks()
      ensures active == Threw ==> machine.pc == Some(Raising(true))
      ensures active == No ==> machine.pc == Some(Ending(result))
      ensures active == Yes ==> machine.pc == Some(WritePhase(Running, Spawning))
    {
      result := Saved(ActivationEnded, Silent, 0, None);
      active := ActivateGoalWait(polls);
      if active == No {
        PersistResult(result, Some(Finalizing));
      } else if active == Yes {
        UpdatePhase(Queued);
      }
    }

    // A program that had been started before a restart is not started again.
    method Reconcile(ghost before: State, current: bool) returns (result: Saved, to: Phase)
      requires Tracks() && before.log == log && before.cancelled == cancelled
      requires machine.pc == Some(Reconciled(cfg, before, current))
      ensures Follows(result, to)
    {
      result := if log.Some? then log.value else Saved(Interrupted, Silent, 0, None);
      var withdrawn := cancelled || !current;
      if withdrawn {
        result := result.(event := Cancelled);
      }
      if cfg.notify && !withdrawn {
        result := result.(notice := Pending, attempts := 0);
        to := Notifying;
      } else {
        to := Finalizing;
      }
    }

    // A saved result whose delivery was cut off is given up as unconfirmed.
    method Reload() returns (result: Saved, phase: Phase)
      requires Tracks() && record.result.Some? && record.phase !in {Activating, Queued, Running, Querying}
      requires machine.pc == Some(ResumedLate(cfg, record.phase, record.result.value))
      modifies this
      ensures Tracks() && Resumes(result, phase)
    {
      result, phase := record.result.value, record.phase;
      if phase == Notifying && result.notice == Attempting {
        result := result.(notice := Unconfirmed);
        phase := Finalizing;
        PersistResult(result, Some(phase));
      }
    }

    // The task stands where the saved phase says.
    ghost predicate Resumes(result: Saved, phase: Phase)
      reads this
    {
      machine.pc == Some(
        if phase == Notifying then
          (if IsDelivered(result.notice) then Accepted(cfg, result, false) else Delivering(result, false))
        else if phase == AwaitingAck then AwaitingWake(result)
        else Closing(result))
    }

    // `_watch`: returns the result to end with, or an exception.
    method Watch(polls: nat) returns (result: Saved, answer: Answer)
      requires Tracks() && machine.pc == Some(Locking)
      modifies this
      ensures Tracks()
      ensures answer == Threw ==> machine.pc.Some? && machine.pc.value.Raising?
      ensures answer != Threw ==> machine.pc == Some(Ending(result))
    {
      result, answer := Saved(AlreadyWatching, Silent, 0, None), Yes;
      Await(false);
      if * {
        Fail();
        answer := Threw;
        return;
      }
      if * {
        Take(Lock(false, true));
        return;
      }
      var seen, current := ReadCurrent();
      ghost var before := machine;
      Take(Lock(true, seen));
      result, answer := Resume(before, current, polls);
    }

    // The phase the watch is taken up in.
    method Resume(ghost before: State, current: bool, polls: nat) returns (result: Saved, answer: Answer)
      requires Tracks() && before.record == record && before.log == log && before.cancelled == cancelled
      requires machine.pc == Some(Resumed(cfg, before, current))
      modifies this
      ensures Tracks()
      ensures answer == Threw ==> machine.pc == Some(Raising(true))
      ensures answer != Threw ==> machine.pc == Some(Ending(result))
    {
      var phase := record.phase;
      if phase == Activating {
        result, answer := Activate(polls);
        if answer != Yes {
          return;
        }
        phase := Queued;
      }
      if phase == Queued || phase == Running || phase == Querying {
        var to: Phase;
        if phase == Queued {
          UpdatePhase(Running);
          result, to, answer := ExecuteProgram();
          if answer == Threw {
            return;
          }
        } else {
          result, to := Reconcile(before, current);
        }
        PersistResult(result, Some(to));
        phase := to;
      } else {
        if record.result.None? {
          answer := Threw;
          result := Saved(Interrupted, Silent, 0, None);
          return;
        }
        result, phase := Reload();
      }
      result, answer := Finish(result, phase);
    }

    // The rest of `_watch`: deliver, wait for the acknowledgement, close the log.
    method Finish(saved: Saved, phase: Phase) returns (result: Saved, answer: Answer)
      requires Tracks() && Resumes(saved, phase)
      modifies this
      ensures Tracks()
      ensures answer == Threw ==> machine.pc == Some(Raising(true))
      ensures answer != Threw ==> machine.pc == Some(Ending(result))
    {
      result := saved;
      var at := phase;
      if at == Notifying {
        result, at, answer := DeliverSaved(saved);
        if answer == Threw {
          return;
        }
      }
      if at == AwaitingAck {
        result, answer := AwaitWake(result);
        if answer == Threw {
          return;
        }
      }
      WriteResultLog(result);
      Take(Go);
      answer := Yes;
    }

    // A saved result is delivered, unless it was already, and its phase advanced.
    method DeliverSaved(saved: Saved) returns (result: Saved, at: Phase, answer: Answer)
      requires Tracks() && Resumes(saved, Notifying)
      modifies this
      ensures Tracks()
      ensures answer == Threw ==> machine.pc == Some(Raising(true))
      ensures answer != Threw ==> (at == AwaitingAck || at == Finalizing) && Resumes(result, at)
    {
      result, at, answer := saved, Finalizing, Yes;
      if !IsDelivered(result.notice) {
        result, answer := Deliver(result, false);
        if answer == Threw {
          return;
        }
      }
      if answer == Yes && cfg.owner == GoalOwner {
        at := AwaitingAck;
      }
      UpdateRecord(result, Some(at));
    }

    // `_wake_goal` and what an unacknowledged native wake means.
    method AwaitWake(saved: Saved) returns (result: Saved, answer: Answer)
      requires Tracks() && machine.pc == Some(AwaitingWake(saved))
      modifies this
      ensures Tracks()
      ensures answer == Threw ==> machine.pc == Some(Raising(true))
      ensures answer != Threw ==> machine.pc == Some(Closing(result))
    {
      result := saved;
      Await(true);
      if * {
        Fail();
        answer := Threw;
        return;
      }
      var seen, current := ReadCurrent();
      if result.notice == NativePending && current {
        result := result.(notice := if cancelled then Withdrawn else Unconfirmed);
      }
      Take(Ack(seen));
      PersistResult(result, Some(Finalizing));
      answer := Yes;
    }

    // `_record_watcher_failure`
    method RecordWatcherFailure() returns (result: Saved)
      requires Tracks() && machine.pc.Some? && machine.pc.value.Raising?
      modifies this
      ensures Tracks() && machine.pc == Some(Ending(result))
    {
      result := Saved(WatcherFailed, Silent, 0, None);
      if log.Some? && log.value.event != WatcherFailed {
        result := result.(durable := Some((log.value.notice, log.value.attempts)));
      } else {
        log := Some(result);
      }
      Take(Go);
    }

    // `_notify_watcher_failure` for a failure that no delivery attempt is on record for.
    method AnnounceFailure(failure: Saved) returns (result: Saved)
      requires Tracks() && machine.pc == Some(WritePhase(Notifying, Delivering(failure.(notice := Pending, attempts := 0), true)))
      modifies this
      ensures Tracks() && machine.pc == Some(Finishing(result))
    {
      UpdatePhase(Notifying);
      var delivered: Answer;
      result, delivered := Deliver(failure.(notice := Pending, attempts := 0), true);
      if delivered == Threw {
        result := result.(notice := Raised);
        PersistResult(result, None);
      }
    }

    // The last saved state of the watch.
    method Conclusion(result: Saved)
      requires Tracks() && machine.pc == Some(Finishing(result))
      modifies this
      ensures Tracks() && machine.pc.None?
    {
      var phase := if result.event == WatcherFailed then Finalizing else record.phase;
      record := Record(Done, phase, Some(result));
      Take(Go);
    }

    // `_run_watch`, including `_notify_watcher_failure`: whatever the environment does, the
    // task ends where the machine ends it.
    method RunWatch(polls: nat)
      requires Tracks() && machine.pc == Some(Locking)
      modifies this
      ensures Tracks() && machine.pc.None?
    {
      var result, answer := Watch(polls);
      if answer == Threw {
        result := RecordWatcherFailure();
      }
      Take(Go);
      if record.life != Live {
        return;
      }
      if result.event == WatcherFailed && cfg.notify && (result.notice == Silent || result.notice == Pending) {
        if result.durable.Some? && result.durable.value.1 > 0 {
          var notice := result.durable.value.0;
          if notice == Attempting || notice == Retrying {
            notice := Unconfirmed;
          }
          result := result.(notice := notice, attempts := result.durable.value.1);
        } else {
          result := AnnounceFailure(result);
        }
      }
      Conclusion(result);
    }
  }

  // Where a saved result of the program leads.
  function Following(result: Saved, to: Phase): Pc {
    if to == Notifying then Delivering(result, false) else Closing(result)
  }

  // Where an exception during delivery leads.
  function AfterThrow(result: Saved, failing: bool): Pc {
    var raised := result.(notice := Raised);
    if failing then WriteLog(raised, None, Finishing(raised)) else Raising(true)
  }

  lemma {:induction false} RunStep(cfg: Config, s: State, trace: seq<Choice>, c: Choice)
    ensures Run(cfg, s, trace + [c]) == Next(cfg, Run(cfg, s, trace), c)
    decreases |trace|
  {
    if trace == [] {
      assert (trace + [c])[1..] == [];
    } else {
      assert (trace + [c])[1..] == trace[1..] + [c];
      RunStep(cfg, Next(cfg, s, trace[0]), trace[1..], c);
    }
  }
}
