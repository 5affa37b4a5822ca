// The bounded timer loop: its state, what `validate` accepts, its transitions, and the
// object that performs them in place.
module Loop {
  import opened Base
  import GoalModel

  datatype LoopStatus = Active | Completed | Cancelled

  datatype LoopPhase = Running | Waiting

  datatype Run = Run(iteration: int, summary: string, completedAt: Time)

  datatype LoopEntry =
    | LogInit
    | LogSchedule(iteration: int, watchId: string)
    | LogFinish(iteration: int)
    | LogBegin(iteration: int, eventId: string)
    | LogExpire(eventId: string)
    | LogCancel

  datatype LoopEvent = LoopEvent(at: Time, entry: LoopEntry)

  // The goal node a monitor loop belongs to.
  datatype Owner = Owner(path: string, node: string)

  datatype Loop = Loop(task: string, eventNote: Option<string>, client: GoalModel.Client, session: string,
                       owner: Option<Owner>, interval: Time, deadline: Time, maxIterations: Option<int>,
                       status: LoopStatus, phase: Option<LoopPhase>, iteration: int, nextRunAt: Option<Time>,
                       watchId: Option<string>, lastEventId: Option<string>, runs: seq<Run>, events: seq<LoopEvent>)

  datatype LoopError = NotRunning | NotWaiting | GoalClosed | EventMismatch | NotExpired | AlreadyCompleted

  datatype DueStatus = DueCompleted | DueCancelled | Stale | Expired | Ready | NotYet

  type Outcome = Result<Loop, LoopError>

  predicate IsWaiting(l: Loop) {
    l.status == Active && l.phase == Some(Waiting)
  }

  predicate IsRunning(l: Loop) {
    l.status == Active && l.phase == Some(Running)
  }

  // `validate`
  predicate ValidLoop(l: Loop) {
    && NonBlank(l.task) && NonBlank(l.session)
    && (l.eventNote.Some? ==> GoalModel.SingleLine(l.eventNote.value))
    && (l.owner.Some? ==> l.owner.value.path != "" && l.owner.value.node != "")
    && (l.status == Active <==> l.phase.Some?)
    && l.interval > 0.0 && l.deadline > 0.0
    && l.iteration >= 1
    && (l.maxIterations.Some? ==> l.maxIterations.value >= 1)
    && (if IsWaiting(l) then l.watchId.Some? && l.watchId.value != "" && l.nextRunAt.Some?
        else l.watchId.None? && l.nextRunAt.None?)
  }

  // `goal_is_open`: a monitor belongs to one unfinished node of an open goal; the goal file
  // may be missing or unreadable.
  predicate GoalIsOpen(l: Loop, file: Option<GoalModel.Goal>) {
    l.owner.None? ||
    (file.Some? && l.owner.value.node in file.value.nodes
     && file.value.status == GoalModel.GoalOpen
     && file.value.nodes[l.owner.value.node].status in {GoalModel.Pending, GoalModel.Running, GoalModel.Waiting}
     && file.value.client == l.client && file.value.thread == Some(l.session))
  }

  // The state `init` writes.
  function Initial(task: string, eventNote: Option<string>, client: GoalModel.Client, session: string, owner: Option<Owner>,
                   interval: Time, duration: Time, maxIterations: Option<int>, now: Time): Loop {
    Loop(task, eventNote, client, session, owner, interval, now + duration, maxIterations, Active, Some(Running), 1,
         None, None, None, [], [LoopEvent(now, LogInit)])
  }

  function Record(l: Loop, entry: LoopEntry, now: Time): Loop {
    l.(events := l.events + [LoopEvent(now, entry)])
  }

  function Stop(l: Loop, status: LoopStatus): Loop {
    l.(status := status, phase := None, nextRunAt := None, watchId := None)
  }

  function Min(a: Time, b: Time): Time {
    if a <= b then a else b
  }

  function CancelLoop(l: Loop, now: Time): Outcome {
    if l.status == Completed then Err(AlreadyCompleted)
    else Ok(Record(Stop(l, Cancelled), LogCancel, now))
  }

  function CompleteRun(l: Loop, summary: string, watchId: string, file: Option<GoalModel.Goal>, now: Time): Outcome {
    if !IsRunning(l) then Err(NotRunning)
    else if !GoalIsOpen(l, file) then CancelLoop(l, now)
    else
      var ran := l.(runs := l.runs + [Run(l.iteration, summary, now)]);
      if now >= l.deadline || (l.maxIterations.Some? && l.iteration >= l.maxIterations.value)
      then Ok(Record(Stop(ran, Completed), LogFinish(l.iteration), now))
      else
        var waiting := ran.(phase := Some(Waiting), nextRunAt := Some(Min(now + l.interval, l.deadline)), watchId := Some(watchId));
        Ok(Record(waiting, LogSchedule(l.iteration, watchId), now))
  }

  function Due(l: Loop, watchId: string, now: Time): DueStatus {
    if l.status == Completed then DueCompleted
    else if l.status == Cancelled then DueCancelled
    else if l.phase != Some(Waiting) || l.watchId != Some(watchId) then Stale
    else if now >= l.deadline then Expired
    else if l.nextRunAt.Some? && now >= l.nextRunAt.value then Ready
    else NotYet
  }

  function ExpireLoop(l: Loop, eventId: string, now: Time): Loop {
    Record(Stop(l, Completed).(lastEventId := Some(eventId)), LogExpire(eventId), now)
  }

  // `_require_active_wait`
  function WaitRefusal(l: Loop, eventId: string, file: Option<GoalModel.Goal>): Option<LoopError> {
    if !GoalIsOpen(l, file) then Some(GoalClosed)
    else if !IsWaiting(l) then Some(NotWaiting)
    else if l.watchId != Some(eventId) then Some(EventMismatch)
    else None
  }

  function BeginRun(l: Loop, eventId: string, file: Option<GoalModel.Goal>, now: Time): Outcome {
    if l.lastEventId == Some(eventId) then Ok(l)
    else if WaitRefusal(l, eventId, file).Some? then Err(WaitRefusal(l, eventId, file).value)
    else if now >= l.deadline then Ok(ExpireLoop(l, eventId, now))
    else
      var begun := l.(iteration := l.iteration + 1, phase := Some(Running), nextRunAt := None, watchId := None,
                      lastEventId := Some(eventId));
      Ok(Record(begun, LogBegin(begun.iteration, eventId), now))
  }

  function ExpireRun(l: Loop, eventId: string, file: Option<GoalModel.Goal>, now: Time): Outcome {
    if l.lastEventId == Some(eventId) then Ok(l)
    else if WaitRefusal(l, eventId, file).Some? then Err(WaitRefusal(l, eventId, file).value)
    else if now < l.deadline then Err(NotExpired)
    else Ok(ExpireLoop(l, eventId, now))
  }

  function After(before: Loop, outcome: Outcome): Loop {
    if outcome.Ok? then outcome.value else before
  }

  function Refusal(outcome: Outcome): Option<LoopError> {
    if outcome.Ok? then None else Some(outcome.error)
  }

  class LoopState {
    var data: Loop

    constructor (data: Loop)
      ensures this.data == data
    {
      this.data := data;
    }

    method AppendEvent(entry: LoopEntry, now: Time)
      modifies this
      ensures data == Record(old(data), entry, now)
    {
      data := data.(events := data.events + [LoopEvent(now, entry)]);
    }

    method Complete(summary: string, watchId: string, file: Option<GoalModel.Goal>, now: Time) returns (e: Option<LoopError>)
      modifies this
      ensures var o := CompleteRun(old(data), summary, watchId, file, now);
              data == After(old(data), o) && e == Refusal(o)
    {
      if data.status != Active || data.phase != Some(Running) {
        return Some(NotRunning);
      }
      if !GoalIsOpen(data, file) {
        e := Cancel(now);
        return;
      }
      var iteration := data.iteration;
      data := data.(runs := data.runs + [Run(iteration, summary, now)]);
      if now >= data.deadline || (data.maxIterations.Some? && iteration >= data.maxIterations.value) {
        data := data.(status := Completed, phase := None, nextRunAt := None, watchId := None);
        AppendEvent(LogFinish(iteration), now);
        return None;
      }
      data := data.(phase := Some(Waiting), nextRunAt := Some(Min(now + data.interval, data.deadline)), watchId := Some(watchId));
      AppendEvent(LogSchedule(iteration, watchId), now);
      return None;
    }

    method Begin(eventId: string, file: Option<GoalModel.Goal>, now: Time) returns (e: Option<LoopError>, duplicate: bool)
      modifies this
      ensures var o := BeginRun(old(data), eventId, file, now);
              data == After(old(data), o) && e == Refusal(o)
      ensures duplicate <==> old(data).lastEventId == Some(eventId)
    {
      duplicate := false;
      if data.lastEventId == Some(eventId) {
        return None, true;
      }
      e := WaitRefusal(data, eventId, file);
      if e.Some? {
        return;
      }
      if now >= data.deadline {
        MarkExpired(eventId, now);
      } else {
        data := data.(iteration := data.iteration + 1);
        data := data.(phase := Some(Running), nextRunAt := None, watchId := None, lastEventId := Some(eventId));
        AppendEvent(LogBegin(data.iteration, eventId), now);
      }
    }

    method Expire(eventId: string, file: Option<GoalModel.Goal>, now: Time) returns (e: Option<LoopError>, duplicate: bool)
      modifies this
      ensures var o := ExpireRun(old(data), eventId, file, now);
              data == After(old(data), o) && e == Refusal(o)
      ensures duplicate <==> old(data).lastEventId == Some(eventId)
    {
      duplicate := false;
      if data.lastEventId == Some(eventId) {
        return None, true;
      }
      e := WaitRefusal(data, eventId, file);
      if e.Some? {
        return;
      }
      if now < data.deadline {
        e := Some(NotExpired);
        return;
      }
      MarkExpired(eventId, now);
    }

    method Cancel(now: Time) returns (e: Option<LoopError>)
      modifies this
      ensures var o := CancelLoop(old(data), now);
              data == After(old(data), o) && e == Refusal(o)
    {
      if data.status == Completed {
        return Some(AlreadyCompleted);
      }
      data := data.(status := Cancelled, phase := None, nextRunAt := None, watchId := None);
      AppendEvent(LogCancel, now);
      return None;
    }

    method MarkExpired(eventId: string, now: Time)
      modifies this
      ensures data == ExpireLoop(old(data), eventId, now)
    {
      data := data.(status := Completed, phase := None, nextRunAt := None, watchId := None, lastEventId := Some(eventId));
      AppendEvent(LogExpire(eventId), now);
    }
  }
}
