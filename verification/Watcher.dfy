// One watch as a machine that can lose its memory between any two steps: what is written
// first to the result log and then to the registry, what a restart makes of it, and when a
// program or a wake helper is started.
module Watcher {
  import opened Base
  import opened Delivery

  datatype Client = Codex | Claude | OtherClient

  // What a watch is for: itself, one wait of a goal node, or one timer of a loop.
  datatype Owner = NoOwner | GoalOwner | LoopOwner

  datatype Config = Config(client: Client, notify: bool, owner: Owner, maxAttempts: nat)

  datatype Phase = Activating | Queued | Running | Querying | Notifying | AwaitingAck | Finalizing

  datatype Life = Live | Done | Dropped

  datatype Happening = Exited | TimedOut | StartFailed | Interrupted | Cancelled | ActivationEnded | AlreadyWatching | WatcherFailed

  // The `notification` field; the two failures are told apart by what is recorded with them.
  datatype Notice =
    | Silent | Pending | Attempting | Retrying | Exhausted | Unconfirmed | Delivered | NativePending
    | Unavailable | NotLaunched | Raised | Withdrawn

  // A result: `durable` is the delivery evidence of an earlier result that a failure refers to.
  datatype Saved = Saved(event: Happening, notice: Notice, attempts: nat, durable: Option<(Notice, nat)>)

  datatype Record = Record(life: Life, phase: Phase, result: Option<Saved>)

  // Where the task is. Writing a result takes two steps, the log first.
  datatype Pc =
    | Locking
    | Polling
    | Spawning
    | Observing
    | WritePhase(phase: Phase, next: Pc)
    | WriteLog(result: Saved, to: Option<Phase>, next: Pc)
    | WriteRecord(result: Saved, to: Option<Phase>, next: Pc)
    | Delivering(result: Saved, failing: bool)
    | Launching(result: Saved, failing: bool)
    | Helping(result: Saved, failing: bool)
    | AwaitingWake(result: Saved)
    | Closing(result: Saved)
    | Raising(locked: bool)
    | Ending(result: Saved)
    | Finishing(result: Saved)

  // Whether the owner's file says that it waits for this watch. Ids are never used twice, so a
  // watch that was let go is not waited for again.
  datatype Claim = Unclaimed | Claimed | Released

  // `record` is the registry entry and `log` the result log, both durable; `offered` is the
  // startup receipt, also durable, and `claim` the owner's file. The rest of the task is lost in
  // a crash. The counters observe what the world has seen.
  datatype State = State(record: Record, log: Option<Saved>, pc: Option<Pc>, cancelled: bool,
                         offered: bool, claim: Claim, starts: nat, launches: nat, accepted: nat)

  datatype GoalPhase = GoalPrepared | GoalActive | GoalInvalid

  datatype Exit = ExitCode(code: int) | HelperTimeout

  datatype Command = CommandReady | CommandUnavailable | CommandNotStarted

  // What the environment decides at each step.
  datatype Choice =
    | Go
    | Crash(turn: bool)
    | Restart
    | Offer
    | Own
    | Release
    | Drop
    | Raise(turn: bool)
    | Lock(held: bool, current: bool)
    | Poll(phase: GoalPhase, expired: bool)
    | Skip(event: Happening, current: bool)
    | Spawn
    | End(event: Happening, current: bool)
    | Attempt(current: bool)
    | Command(outcome: Command)
    | Helper(exit: Exit, turn: bool)
    | Ack(current: bool)

  function Submitted(cfg: Config): State {
    if cfg.owner == GoalOwner
    then State(Record(Live, Activating, None), None, Some(Locking), false, false, Unclaimed, 0, 0, 0)
    else State(Record(Live, Queued, None), None, Some(Locking), false, false, Claimed, 0, 0, 0)
  }

  // `watch_is_current`: a watch without an owner always is; otherwise the owner must wait for it
  // and its file must be readable and say so at this moment.
  predicate IsCurrent(cfg: Config, s: State, seen: bool) {
    cfg.owner == NoOwner || (seen && s.claim == Claimed)
  }

  // The task holds the watch's lock from the moment it got it until `_watch` returns.
  predicate HoldsLock(pc: Pc) {
    match pc
    case Locking => false
    case Raising(locked) => locked
    case Ending(_) => false
    case Finishing(_) => false
    case Delivering(_, failing) => !failing
    case Launching(_, failing) => !failing
    case Helping(_, failing) => !failing
    case WritePhase(_, next) => HoldsLock(next)
    case WriteLog(_, _, next) => next.Ending? || HoldsLock(next)
    case WriteRecord(_, _, next) => next.Ending? || HoldsLock(next)
    case _ => true
  }

  function Count(b: bool): nat {
    if b then 1 else 0
  }

  // `_write_result_log`: a failure that refers to an earlier result leaves the log alone.
  function LogAfter(log: Option<Saved>, result: Saved): Option<Saved> {
    if result.event == WatcherFailed && result.durable.Some? then log else Some(result)
  }

  function PhaseAfter(record: Record, to: Option<Phase>): Phase {
    if to.Some? then to.value else record.phase
  }

  predicate IsDelivered(n: Notice) {
    n == Delivered || n == NativePending
  }

  // The program is over (or will not run): the result to save, and what follows.
  function Concluded(cfg: Config, s: State, event: Happening, durable: Option<(Notice, nat)>, notice: Notice, attempts: nat, current: bool): Pc {
    var withdrawn := s.cancelled || !current;
    var happened := if withdrawn then Cancelled else event;
    if cfg.notify && !withdrawn then
      var result := Saved(happened, Pending, 0, durable);
      WriteLog(result, Some(Notifying), Delivering(result, false))
    else
      var result := Saved(happened, notice, attempts, durable);
      WriteLog(result, Some(Finalizing), Closing(result))
  }

  // `_deliver` returned an exit code.
  function Undelivered(result: Saved, failing: bool): Pc {
    if failing then Finishing(result) else WriteRecord(result, Some(Finalizing), Closing(result))
  }

  // `_deliver` returned None.
  function Accepted(cfg: Config, result: Saved, failing: bool): Pc {
    if failing then Finishing(result)
    else if cfg.owner == GoalOwner then WriteRecord(result, Some(AwaitingAck), AwaitingWake(result))
    else WriteRecord(result, Some(Finalizing), Closing(result))
  }

  // Where a saved result is taken up again.
  function ResumedLate(cfg: Config, phase: Phase, result: Saved): Pc {
    if phase == Notifying then
      if result.notice == Attempting then
        var unsure := result.(notice := Unconfirmed);
        WriteLog(unsure, Some(Finalizing), Closing(unsure))
      else if IsDelivered(result.notice) then Accepted(cfg, result, false)
      else Delivering(result, false)
    else if phase == AwaitingAck then AwaitingWake(result)
    else Closing(result)
  }

  // `_watch` once the lock is held: resume by saved phase.
  function Resumed(cfg: Config, s: State, current: bool): Pc {
    match s.record.phase
    case Activating => Polling
    case Queued => WritePhase(Running, Spawning)
    case Running => Reconciled(cfg, s, current)
    case Querying => Reconciled(cfg, s, current)
    case _ =>
      if s.record.result.None? then Raising(true)
      else ResumedLate(cfg, s.record.phase, s.record.result.value)
  }

  // A program that had been started: use its logged result or give it up as interrupted.
  function Reconciled(cfg: Config, s: State, current: bool): Pc {
    if s.log.Some? then
      Concluded(cfg, s, s.log.value.event, s.log.value.durable, s.log.value.notice, s.log.value.attempts, current)
    else Concluded(cfg, s, Interrupted, None, Silent, 0, current)
  }

  // The outcome of one helper run (`_deliver`).
  function HelperResult(cfg: Config, result: Saved, exit: Exit): Saved {
    var exhausted := result.attempts >= cfg.maxAttempts;
    var again := if exhausted then Exhausted else Retrying;
    if cfg.client == Codex && (exit.HelperTimeout? || exit.code == EXIT_NOTIFY_UNCONFIRMED) then result.(notice := Unconfirmed)
    else if exit.HelperTimeout? then result.(notice := again)
    else if exit.code == EXIT_STARTED then result.(notice := Delivered)
    else result.(notice := again)
  }

  function AfterHelper(cfg: Config, result: Saved, failing: bool): Pc {
    WriteLog(result, None,
      if result.notice == Delivered then Accepted(cfg, result, failing)
      else if result.notice == Retrying then Delivering(result, failing)
      else Undelivered(result, failing))
  }

  // The helper exits with a code `main` assigns, so a started turn shows in it.
  predicate Possible(cfg: Config, exit: Exit, turn: bool) {
    cfg.client == Codex && turn ==>
      exit.HelperTimeout? || exit.code == EXIT_STARTED || exit.code == EXIT_NOTIFY_UNCONFIRMED
  }

  // `_record_watcher_failure`: refer to a logged result, or log the failure itself.
  function FailureResult(log: Option<Saved>): Saved {
    if log.Some? && log.value.event != WatcherFailed
    then Saved(WatcherFailed, Silent, 0, Some((log.value.notice, log.value.attempts)))
    else Saved(WatcherFailed, Silent, 0, None)
  }

  // `_run_watch` after `_watch`, including `_notify_watcher_failure`.
  function Ended(cfg: Config, s: State, result: Saved): Option<Pc> {
    if s.record.life != Live then None
    else if result.event != WatcherFailed || !cfg.notify || (result.notice != Silent && result.notice != Pending)
    then Some(Finishing(result))
    else if result.durable.Some? && result.durable.value.1 > 0 then
      var notice := result.durable.value.0;
      var kept := if notice == Attempting || notice == Retrying then Unconfirmed else notice;
      Some(Finishing(result.(notice := kept, attempts := result.durable.value.1)))
    else Some(WritePhase(Notifying, Delivering(result.(notice := Pending, attempts := 0), true)))
  }

  predicate CanRaise(pc: Pc) {
    pc.Locking? || pc.Polling? || pc.Spawning? || pc.Observing? || pc.Delivering? || pc.Launching? || pc.Helping? || pc.AwaitingWake?
  }

  predicate AtAwait(pc: Pc) {
    pc.Locking? || pc.Polling? || pc.Spawning? || pc.Observing? || pc.Delivering? || pc.Helping? || pc.AwaitingWake?
  }

  function Goto(s: State, pc: Pc): State {
    s.(pc := Some(pc))
  }

  // The steps that need no decision.
  function Proceed(cfg: Config, s: State): State
    requires s.pc.Some?
  {
    match s.pc.value
    case WritePhase(phase, next) => Goto(s.(record := s.record.(phase := phase)), next)
    case WriteLog(result, to, next) => Goto(s.(log := LogAfter(s.log, result)), WriteRecord(result, to, next))
    case WriteRecord(result, to, next) =>
      Goto(s.(record := s.record.(result := Some(result), phase := PhaseAfter(s.record, to))), next)
    case Closing(result) => Goto(s.(log := LogAfter(s.log, result)), Ending(result))
    case Raising(_) => Goto(s.(log := LogAfter(s.log, FailureResult(s.log))), Ending(FailureResult(s.log)))
    case Ending(result) => s.(pc := Ended(cfg, s, result))
    case Finishing(result) =>
      s.(record := Record(Done, if result.event == WatcherFailed then Finalizing else s.record.phase, Some(result)), pc := None)
    case _ => s
  }

  // An exception: inside a failure notice it ends the notice, elsewhere it becomes a failure.
  function Threw(s: State, turn: bool): State
    requires s.pc.Some? && CanRaise(s.pc.value)
  {
    var pc := s.pc.value;
    var t := s.(accepted := s.accepted + Count(turn && pc.Helping?));
    if (pc.Delivering? || pc.Launching? || pc.Helping?) && pc.failing then
      var result := pc.result.(notice := Raised);
      Goto(t, WriteLog(result, None, Finishing(result)))
    else Goto(t, Raising(!pc.Locking?))
  }

  // `_deliver` at the head of its loop.
  function Tried(cfg: Config, s: State, result: Saved, failing: bool, current: bool): Pc {
    if cfg.client == Claude then
      var native := result.(notice := NativePending, attempts := 0);
      WriteLog(native, None, Accepted(cfg, native, failing))
    else if result.attempts >= cfg.maxAttempts then Undelivered(result, failing)
    else if s.cancelled || !current then Undelivered(result.(notice := Withdrawn), failing)
    else
      var attempt := result.(notice := Attempting, attempts := result.attempts + 1);
      WriteLog(attempt, None, Launching(attempt, failing))
  }

  // The wait for the goal's acknowledgement is over.
  function AckResult(s: State, result: Saved, current: bool): Saved {
    if result.notice == NativePending && current
    then result.(notice := if s.cancelled then Withdrawn else Unconfirmed)
    else result
  }

  // A program is given up as cancelled on request, or because its owner does not wait for it.
  predicate MayEnd(cfg: Config, s: State, event: Happening) {
    event == Cancelled ==> s.cancelled || cfg.owner != NoOwner
  }

  // The owner's file changes: the goal activates the wait, which takes the receipt and the lock,
  // or the owner lets go of the watch.
  function Claiming(cfg: Config, s: State, c: Choice): State {
    if c.Own? && cfg.owner == GoalOwner && s.claim == Unclaimed && s.offered && s.pc.Some? && HoldsLock(s.pc.value)
    then s.(claim := Claimed)
    else if c.Release? && cfg.owner != NoOwner then s.(claim := Released)
    else s
  }

  // One step; a choice that does not apply where the task is changes nothing.
  function Next(cfg: Config, s: State, c: Choice): State {
    if c.Own? || c.Release? then Claiming(cfg, s, c)
    else if s.pc.None? then
      if c.Restart? && s.record.life == Live then s.(pc := Some(Locking), cancelled := false) else s
    else
      var pc := s.pc.value;
      match c
      case Restart => s
      case Own => s
      case Release => s
      case Crash(turn) => s.(pc := None, accepted := s.accepted + Count(turn && pc.Helping?))
      case Drop => if AtAwait(pc) && s.record.life == Live then s.(record := s.record.(life := Dropped), cancelled := true) else s
      case Raise(turn) => if CanRaise(pc) then Threw(s, turn) else s
      case Go => Proceed(cfg, s)
      case Lock(held, current) =>
        if !pc.Locking? then s
        else if held then Goto(s, Resumed(cfg, s, IsCurrent(cfg, s, current)))
        else Goto(s, Ending(Saved(AlreadyWatching, Silent, 0, None)))
      case Offer => if pc.Polling? then s.(offered := true) else s
      case Poll(phase, expired) =>
        if !pc.Polling? || !s.offered then s
        else if !s.cancelled && phase == GoalActive then
          if s.claim == Claimed then Goto(s, WritePhase(Queued, WritePhase(Running, Spawning))) else s
        else if s.cancelled || phase == GoalInvalid || expired then
          var result := Saved(ActivationEnded, Silent, 0, None);
          Goto(s, WriteLog(result, Some(Finalizing), Ending(result)))
        else s
      case Skip(event, current) =>
        if pc.Spawning? && event in {TimedOut, Cancelled, StartFailed} && MayEnd(cfg, s, event)
        then Goto(s, Concluded(cfg, s, event, None, Silent, 0, IsCurrent(cfg, s, current))) else s
      case Spawn => if pc.Spawning? then Goto(s.(starts := s.starts + 1), WritePhase(Querying, Observing)) else s
      case End(event, current) =>
        if pc.Observing? && event in {Exited, TimedOut, Cancelled} && MayEnd(cfg, s, event)
        then Goto(s, Concluded(cfg, s, event, None, Silent, 0, IsCurrent(cfg, s, current))) else s
      case Attempt(current) =>
        if pc.Delivering? then Goto(s, Tried(cfg, s, pc.result, pc.failing, IsCurrent(cfg, s, current))) else s
      case Command(outcome) =>
        if !pc.Launching? then s
        else if outcome == CommandReady then Goto(s.(launches := s.launches + 1), Helping(pc.result, pc.failing))
        else
          var result := pc.result.(notice := if outcome == CommandUnavailable then Unavailable else NotLaunched);
          Goto(s, WriteLog(result, None, Undelivered(result, pc.failing)))
      case Helper(exit, turn) =>
        if pc.Helping? && Possible(cfg, exit, turn) then
          Goto(s.(accepted := s.accepted + Count(turn)), AfterHelper(cfg, HelperResult(cfg, pc.result, exit), pc.failing))
        else s
      case Ack(current) =>
        if !pc.AwaitingWake? then s
        else
          var result := AckResult(s, pc.result, IsCurrent(cfg, s, current));
          Goto(s, WriteLog(result, Some(Finalizing), Closing(result)))
  }

  function Run(cfg: Config, s: State, choices: seq<Choice>): State
    decreases |choices|
  {
    if choices == [] then s else Run(cfg, Next(cfg, s, choices[0]), choices[1..])
  }
}
